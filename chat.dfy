/**
 * The financial-advisor chat (`ChatIAViewModel` and `ChatIaScreen`): the
 * figures `construirPromptCompleto` puts in the opening prompt, the
 * view-model's ui state and its once-per-chat initialisation flag, and the
 * screen's message list with its typing placeholders.
 */
module Chat {
  import opened Wrappers
  import opened Text
  import opened Calendar
  import opened ListOps
  import opened Dto
  import Saldo

  // ---------------------------------------------------------------------
  // The figures of the opening prompt
  // ---------------------------------------------------------------------

  const TipoGasto: string := "Gasto"
  const TipoIngreso: string := "Ingreso"
  const DivisaPorDefecto: string := "RD$"
  const MaxRecientes: nat := 5
  const MaxActivasMostradas: nat := 4
  const MaxCompletadasMostradas: nat := 3

  /** `tipo.equals("Gasto", ignoreCase = true)`. */
  predicate EsGasto(t: Transaccion) { EqualsIgnoreCase(t.tipo, TipoGasto) }

  /** `tipo.equals("Ingreso", ignoreCase = true)`. */
  predicate EsIngreso(t: Transaccion) { EqualsIgnoreCase(t.tipo, TipoIngreso) }

  function Gastos(ts: seq<Transaccion>): seq<Transaccion> { Filter(ts, EsGasto) }
  function Ingresos(ts: seq<Transaccion>): seq<Transaccion> { Filter(ts, EsIngreso) }

  function TotalGastos(ts: seq<Transaccion>): real { SumOf(Gastos(ts), Saldo.Monto) }
  function TotalIngresos(ts: seq<Transaccion>): real { SumOf(Ingresos(ts), Saldo.Monto) }

  /** `balanceNeto`: total income minus total expenses. */
  function BalanceNeto(ts: seq<Transaccion>): real { TotalIngresos(ts) - TotalGastos(ts) }

  /** The case-insensitive comparison with "Gasto" is the lower-cased comparison with "gasto". */
  lemma GastoIsLowercaseGasto(t: Transaccion)
    ensures EsGasto(t) <==> Saldo.EsGasto(t)
  {
    EqualsIgnoreCaseIffLowercase(t.tipo, TipoGasto);
    assert Lowercase(TipoGasto) == Saldo.TipoGasto by {
      assert Lowercase(TipoGasto)[0] == 'g';
    }
  }

  lemma IngresoIsLowercaseIngreso(t: Transaccion)
    ensures EsIngreso(t) <==> Saldo.EsIngreso(t)
  {
    EqualsIgnoreCaseIffLowercase(t.tipo, TipoIngreso);
    assert Lowercase(TipoIngreso) == Saldo.TipoIngreso by {
      assert Lowercase(TipoIngreso)[0] == 'i';
    }
  }

  /**
   * The net balance the advisor is told is the balance the balance
   * calculator computes from the same transactions.
   */
  lemma BalanceNetoIsSaldo(ts: seq<Transaccion>)
    ensures BalanceNeto(ts) == Saldo.SaldoCalculado(ts)
  {
    forall i | 0 <= i < |ts| ensures EsGasto(ts[i]) == Saldo.EsGasto(ts[i]) && EsIngreso(ts[i]) == Saldo.EsIngreso(ts[i]) {
      GastoIsLowercaseGasto(ts[i]);
      IngresoIsLowercaseIngreso(ts[i]);
    }
    FilterCongruent(ts, EsGasto, Saldo.EsGasto);
    FilterCongruent(ts, EsIngreso, Saldo.EsIngreso);
    Saldo.SaldoIsIngresosMinusGastos(ts);
  }

  /** `String.format` of the savings ratio, or "N/A": a ratio exists only when expenses are positive. */
  function Ratio(ts: seq<Transaccion>): (r: Option<real>)
    ensures r.None? <==> TotalGastos(ts) <= 0.0
    ensures r.Some? ==> r.value * TotalGastos(ts) == BalanceNeto(ts) * 100.0
  {
    if TotalGastos(ts) > 0.0 then Some(BalanceNeto(ts) / TotalGastos(ts) * 100.0) else None
  }

  /** With no negative amounts, total income is not negative. */
  lemma TotalIngresosNonNegative(ts: seq<Transaccion>)
    requires forall i :: 0 <= i < |ts| ==> ts[i].monto >= 0.0
    ensures TotalIngresos(ts) >= 0.0
  {
    var ing := Ingresos(ts);
    forall i | 0 <= i < |ing| ensures Saldo.Monto(ing[i]) >= 0.0 {
      assert ing[i] in ts;
    }
    SumOfNonNegative(ing, Saldo.Monto);
  }

  /** With no negative amounts, expenses can never push the ratio below -100%. */
  lemma RatioAtLeastMinusHundred(ts: seq<Transaccion>)
    requires forall i :: 0 <= i < |ts| ==> ts[i].monto >= 0.0
    requires Ratio(ts).Some?
    ensures Ratio(ts).value >= -100.0
  {
    TotalIngresosNonNegative(ts);
    var i, g, r := TotalIngresos(ts), TotalGastos(ts), Ratio(ts).value;
    assert r * g == (i - g) * 100.0;
    RatioBound(i, g, r);
  }

  /** A product that is not negative, with a positive second factor, has a first factor that is not negative. */
  lemma PositiveFactor(a: real, b: real)
    requires b > 0.0 && a * b >= 0.0
    ensures a >= 0.0
  {
  }

  /** `r * g == (i - g) * 100` with `g` positive and `i` not negative puts `r` at -100 or above. */
  lemma RatioBound(i: real, g: real, r: real)
    requires g > 0.0 && i >= 0.0 && r * g == (i - g) * 100.0
    ensures r >= -100.0
  {
    assert (r + 100.0) * g == i * 100.0;
    PositiveFactor(r + 100.0, g);
  }

  /** `total / lista.size` when the list is not empty; the prompt says there are none otherwise. */
  function Promedio(total: real, n: nat): (r: Option<real>)
    ensures r.Some? <==> n > 0
    ensures r.Some? ==> r.value * (n as real) == total
  {
    if n > 0 then Some(total / n as real) else None
  }

  // Recent transactions: `sortedByDescending { fecha }.take(5)`.

  function Momento(t: Transaccion): int { Instant(t.fecha) }

  function Recientes(ts: seq<Transaccion>): seq<Transaccion> {
    Primeras(SortedByDescending(ts, Momento), MaxRecientes)
  }

  /**
   * The recent transactions are the five latest, latest first: as many as
   * there are up to five, taken from the transactions, in descending date
   * order, and no transaction left out is later than any one listed.
   */
  lemma RecientesAreTheLatest(ts: seq<Transaccion>)
    ensures |Recientes(ts)| == if |ts| < MaxRecientes then |ts| else MaxRecientes
    ensures Descending(Recientes(ts), Momento)
    ensures multiset(Recientes(ts)) <= multiset(ts)
    ensures forall x, i | x in multiset(ts) - multiset(Recientes(ts)) && 0 <= i < |Recientes(ts)| ::
      Momento(x) <= Momento(Recientes(ts)[i])
  {
    TakeOfSortedIsLatest(ts, Momento, MaxRecientes);
  }

  // Saving goals: `montoAhorrado ?: 0.0` against `montoObjetivo`.

  function Ahorrado(m: MetaAhorro): real { m.montoAhorrado.GetOr(0.0) }

  /** A goal still in progress: saved less than the target. */
  predicate EsActiva(m: MetaAhorro) { Ahorrado(m) < m.montoObjetivo }

  /** A completed goal: saved at least the target. */
  predicate EsCompletada(m: MetaAhorro) { Ahorrado(m) >= m.montoObjetivo }

  function MetasActivas(ms: seq<MetaAhorro>): seq<MetaAhorro> { Filter(ms, EsActiva) }
  function MetasCompletadas(ms: seq<MetaAhorro>): seq<MetaAhorro> { Filter(ms, EsCompletada) }

  /**
   * Active and completed goals split the goals: together they are exactly
   * the goals, so their counts add up to the number of goals, and no goal
   * is in both.
   */
  lemma MetasPartition(ms: seq<MetaAhorro>)
    ensures multiset(MetasActivas(ms)) + multiset(MetasCompletadas(ms)) == multiset(ms)
    ensures |MetasActivas(ms)| + |MetasCompletadas(ms)| == |ms|
    ensures forall m | m in MetasActivas(ms) :: m !in MetasCompletadas(ms)
  {
    FilterPartition(ms, EsActiva, EsCompletada);
  }

  /**
   * Kotlin's `Double.toInt()`: truncation toward zero, with values beyond
   * the `Int` range clamped to its ends.
   */
  function ToIntTruncado(x: real): (r: int)
    ensures IsInt32(r)
    ensures x >= IntMax as real ==> r == IntMax
    ensures x <= IntMin as real ==> r == IntMin
    ensures IntMin as real < x < IntMax as real && x >= 0.0 ==> 0 <= r && r as real <= x < r as real + 1.0
    ensures IntMin as real < x < IntMax as real && x < 0.0 ==> r <= 0 && r as real - 1.0 < x <= r as real
  {
    if x >= IntMax as real then IntMax
    else if x <= IntMin as real then IntMin
    else if x >= 0.0 then x.Floor
    else -((-x).Floor)
  }

  /** The percentage shown for an active goal: 0 unless the target is positive. */
  function Progreso(m: MetaAhorro): (p: int)
    ensures m.montoObjetivo <= 0.0 ==> p == 0
  {
    if m.montoObjetivo > 0.0 then ToIntTruncado(Ahorrado(m) / m.montoObjetivo * 100.0) else 0
  }

  /** An active goal with nothing negative saved shows a progress from 0 to 99 percent. */
  lemma ProgresoOfActiva(m: MetaAhorro)
    requires EsActiva(m) && Ahorrado(m) >= 0.0
    ensures 0 <= Progreso(m) <= 99
  {
    if m.montoObjetivo > 0.0 {
      var q := Ahorrado(m) / m.montoObjetivo;
      assert q * m.montoObjetivo == Ahorrado(m);
      PositiveFactor(q, m.montoObjetivo);
      assert (1.0 - q) * m.montoObjetivo == m.montoObjetivo - Ahorrado(m);
      PositiveFactor(1.0 - q, m.montoObjetivo);
      assert q != 1.0;
      assert 0.0 <= q * 100.0 < 100.0;
    }
  }

  /** A goal's line in "METAS ACTIVAS EN PROGRESO". */
  datatype MetaEnCurso = MetaEnCurso(meta: MetaAhorro, ahorrado: real, progreso: int)

  function MetasEnCurso(ms: seq<MetaAhorro>): (r: seq<MetaEnCurso>)
    ensures |r| == |ms|
    ensures forall i :: 0 <= i < |r| ==> r[i].meta == ms[i] && r[i].ahorrado == Ahorrado(ms[i]) && r[i].progreso == Progreso(ms[i])
  {
    seq(|ms|, i requires 0 <= i < |ms| => MetaEnCurso(ms[i], Ahorrado(ms[i]), Progreso(ms[i])))
  }

  /** `if (divisa.isEmpty()) "RD$" else divisa`. */
  function DivisaMostrada(divisa: string): (r: string)
    ensures r == (if divisa == [] then DivisaPorDefecto else divisa)
    ensures r != []
  {
    if divisa == [] then DivisaPorDefecto else divisa
  }

  /** The sign printed before a recent transaction's amount, as written: a case-sensitive match. */
  function SignoEscrito(t: Transaccion): (r: string)
    ensures r == "-" <==> t.tipo == TipoGasto
    ensures r == "+" <==> t.tipo != TipoGasto
  {
    if t.tipo == TipoGasto then "-" else "+"
  }

  /** A transaction of type "gasto" is counted among the expenses yet printed with a "+". */
  lemma SignoEscritoDisagreesWithTotals(t: Transaccion)
    requires t.tipo == "gasto"
    ensures EsGasto(t) && SignoEscrito(t) == "+"
  {
    assert t.tipo != TipoGasto by {
      assert t.tipo[0] != TipoGasto[0];
    }
    assert LowerChar(t.tipo[0]) == LowerChar(TipoGasto[0]);
  }

  /** The sign the totals call for: "-" exactly for the transactions counted as expenses. */
  function Signo(t: Transaccion): (r: string)
    ensures r == "-" <==> EsGasto(t)
    ensures r == "+" <==> !EsGasto(t)
  {
    if EsGasto(t) then "-" else "+"
  }

  /** "METAS ACTIVAS EN PROGRESO": the first four active goals with their progress. */
  function ActivasMostradas(ms: seq<MetaAhorro>): (r: seq<MetaEnCurso>)
    ensures |r| <= MaxActivasMostradas
    ensures forall i :: 0 <= i < |r| ==> EsActiva(r[i].meta) && r[i].meta in ms && r[i].progreso == Progreso(r[i].meta)
  {
    var activas := Primeras(MetasActivas(ms), MaxActivasMostradas);
    assert forall i :: 0 <= i < |activas| ==> activas[i] == MetasActivas(ms)[i];
    MetasEnCurso(activas)
  }

  /** "METAS COMPLETADAS": the first three completed goals. */
  function CompletadasMostradas(ms: seq<MetaAhorro>): (r: seq<MetaAhorro>)
    ensures |r| <= MaxCompletadasMostradas
    ensures forall i :: 0 <= i < |r| ==> EsCompletada(r[i]) && r[i] in ms
  {
    var completadas := Primeras(MetasCompletadas(ms), MaxCompletadasMostradas);
    assert forall i :: 0 <= i < |completadas| ==> completadas[i] == MetasCompletadas(ms)[i];
    completadas
  }

  /** The sign list of the recent transactions, as line 163 prints it. */
  function Signos(ts: seq<Transaccion>): (r: seq<string>)
    ensures |r| == |ts| && forall i :: 0 <= i < |r| ==> r[i] == SignoEscrito(ts[i])
  {
    seq(|ts|, i requires 0 <= i < |ts| => SignoEscrito(ts[i]))
  }

  /** "Gasto" spelt exactly is counted as an expense. */
  lemma ExactGastoIsGasto(t: Transaccion)
    requires t.tipo == TipoGasto
    ensures EsGasto(t)
  {
  }

  /**
   * The printed signs are the signs the totals call for exactly when no
   * listed transaction is an expense under another spelling of "Gasto".
   */
  lemma SignosAgreeIffExactSpelling(ts: seq<Transaccion>)
    ensures (forall i :: 0 <= i < |ts| ==> Signos(ts)[i] == Signo(ts[i])) <==>
      (forall i :: 0 <= i < |ts| ==> (EsGasto(ts[i]) ==> ts[i].tipo == TipoGasto))
  {
    forall i | 0 <= i < |ts| && ts[i].tipo == TipoGasto
      ensures EsGasto(ts[i])
    {
      ExactGastoIsGasto(ts[i]);
    }
  }

  /** The figures of the opening prompt; its wording and number formatting are not modelled. */
  datatype Resumen = Resumen(
    nombreCompleto: string,
    nombre: string,
    email: string,
    saldoTotal: real,
    divisa: string,
    numTransacciones: nat,
    totalGastos: real,
    numGastos: nat,
    totalIngresos: real,
    numIngresos: nat,
    balanceNeto: real,
    recientes: seq<Transaccion>,
    signosRecientes: seq<string>,
    numMetas: nat,
    numActivas: nat,
    numCompletadas: nat,
    activasMostradas: seq<MetaEnCurso>,
    completadasMostradas: seq<MetaAhorro>,
    gastoPromedio: Option<real>,
    ingresoPromedio: Option<real>,
    ratio: Option<real>)

  /**
   * `construirPromptCompleto`: the net balance agrees with the balance
   * calculator, the goal counts add up, at most five recent transactions,
   * four active and three completed goals are listed, and each listed goal
   * is of its kind.
   */
  function ConstruirResumen(u: Usuario, ts: seq<Transaccion>, ms: seq<MetaAhorro>): (r: Resumen)
    ensures r.balanceNeto == Saldo.SaldoCalculado(ts) && r.balanceNeto == r.totalIngresos - r.totalGastos
    ensures r.numActivas + r.numCompletadas == r.numMetas == |ms|
    ensures r.numGastos + r.numIngresos <= r.numTransacciones == |ts|
    ensures r.recientes == Recientes(ts) && |r.recientes| <= MaxRecientes
    ensures |r.signosRecientes| == |r.recientes|
      && forall i :: 0 <= i < |r.recientes| ==> r.signosRecientes[i] == SignoEscrito(r.recientes[i])
    ensures r.ratio.None? <==> r.totalGastos <= 0.0
    ensures r.divisa != []
  {
    BalanceNetoIsSaldo(ts);
    MetasPartition(ms);
    GastosIngresosDisjoint(ts);
    var recientes := Recientes(ts);
    Resumen(
      Trim(u.nombre + " " + u.apellido),
      u.nombre,
      u.email,
      u.saldoTotal,
      DivisaMostrada(u.divisa),
      |ts|,
      TotalGastos(ts),
      |Gastos(ts)|,
      TotalIngresos(ts),
      |Ingresos(ts)|,
      BalanceNeto(ts),
      recientes,
      Signos(recientes),
      |ms|,
      |MetasActivas(ms)|,
      |MetasCompletadas(ms)|,
      ActivasMostradas(ms),
      CompletadasMostradas(ms),
      Promedio(TotalGastos(ts), |Gastos(ts)|),
      Promedio(TotalIngresos(ts), |Ingresos(ts)|),
      Ratio(ts))
  }

  /** No transaction is both an expense and an income, so the two counts never exceed the total. */
  lemma {:induction false} GastosIngresosDisjoint(ts: seq<Transaccion>)
    ensures |Gastos(ts)| + |Ingresos(ts)| <= |ts|
  {
    if ts != [] {
      GastosIngresosDisjoint(ts[1..]);
      var t := ts[0];
      assert Gastos(ts) == (if EsGasto(t) then [t] else []) + Gastos(ts[1..]);
      assert Ingresos(ts) == (if EsIngreso(t) then [t] else []) + Ingresos(ts[1..]);
    }
  }

  // ---------------------------------------------------------------------
  // ChatIAViewModel
  // ---------------------------------------------------------------------

  datatype ChatIaUiState = Initial | Loading | Success(outputText: string) | Error(errorMessage: string)

  const MsgErrorInicializacion: string := "Error en inicialización"
  const PrefijoErrorCarga: string := "Error al cargar datos del usuario: "
  const MsgRespuestaVacia: string := "Respuesta vacía"
  const MsgErrorDesconocido: string := "Error desconocido"

  /** The three server reads `inicializarConUsuario` makes: the user, their transactions and their goals. */
  datatype DatosUsuario = DatosUsuario(usuario: Usuario, transacciones: seq<Transaccion>, metas: seq<MetaAhorro>)

  /** What is sent to the current chat: the opening profile or a user question. */
  datatype Envio = PerfilInicial(resumen: Resumen) | Pregunta(texto: string)

  /** The opening message built from the three reads: the prompt's summary of the user. */
  function PerfilDe(d: DatosUsuario): Envio {
    PerfilInicial(ConstruirResumen(d.usuario, d.transacciones, d.metas))
  }

  /** The state after the opening message's reply: text is a success, a null text an error. */
  function EstadoTrasInicio(respuesta: Attempt<Option<string>>): (st: ChatIaUiState)
    ensures respuesta.Done? && respuesta.value.Some? <==> st.Success?
    ensures st.Success? ==> st.outputText == respuesta.value.value
    ensures respuesta.Done? && respuesta.value.None? <==> st == ChatIaUiState.Error(MsgErrorInicializacion)
    ensures respuesta.Thrown? ==> st == ChatIaUiState.Error(PrefijoErrorCarga + MessageText(respuesta.message))
  {
    match respuesta
    case Done(Some(t)) => ChatIaUiState.Success(t)
    case Done(None) => ChatIaUiState.Error(MsgErrorInicializacion)
    case Thrown(m) => ChatIaUiState.Error(PrefijoErrorCarga + MessageText(m))
  }

  /** The state after a question's reply; an exception without a message reads "Error desconocido". */
  function EstadoTrasPregunta(respuesta: Attempt<Option<string>>): (st: ChatIaUiState)
    ensures respuesta.Done? && respuesta.value.Some? <==> st.Success?
    ensures st.Success? ==> st.outputText == respuesta.value.value
    ensures respuesta.Done? && respuesta.value.None? ==> st == ChatIaUiState.Error(MsgRespuestaVacia)
    ensures respuesta.Thrown? && respuesta.message.Some? ==> st == ChatIaUiState.Error(respuesta.message.value)
    ensures respuesta.Thrown? && respuesta.message.None? ==> st == ChatIaUiState.Error(MsgErrorDesconocido)
    ensures !st.Initial? && !st.Loading?
  {
    match respuesta
    case Done(Some(t)) => ChatIaUiState.Success(t)
    case Done(None) => ChatIaUiState.Error(MsgRespuestaVacia)
    case Thrown(m) => ChatIaUiState.Error(m.GetOr(MsgErrorDesconocido))
  }

  class ChatIAViewModel {
    var uiState: ChatIaUiState
    var usuarioInicializado: bool
    /** The messages sent to the current chat, which `clearChat` replaces by a fresh one. */
    var enviados: seq<Envio>
    /** Coroutines launched and not yet finished. */
    var pendientes: nat

    constructor ()
      ensures uiState == ChatIaUiState.Initial && !usuarioInicializado && enviados == [] && pendientes == 0
    {
      uiState := ChatIaUiState.Initial;
      usuarioInicializado := false;
      enviados := [];
      pendientes := 0;
    }

    /** `inicializarConUsuario`: once the chat is initialised it does nothing; otherwise it loads. */
    method InicializarConUsuario(usuarioId: int)
      modifies this
      ensures old(usuarioInicializado) ==> unchanged(this)
      ensures !old(usuarioInicializado) ==> uiState == ChatIaUiState.Loading && pendientes == old(pendientes) + 1
      ensures usuarioInicializado == old(usuarioInicializado) && enviados == old(enviados)
    {
      if !usuarioInicializado {
        uiState := ChatIaUiState.Loading;
        pendientes := pendientes + 1;
      }
    }

    /**
     * The initialising coroutine's end: when the three reads fail nothing
     * is sent; otherwise the profile is sent, and only a reply with text
     * marks the chat initialised.
     */
    method OnInicializado(datos: Attempt<DatosUsuario>, respuesta: Attempt<Option<string>>)
      requires pendientes > 0
      modifies this
      ensures pendientes == old(pendientes) - 1
      ensures datos.Thrown? ==> (uiState == ChatIaUiState.Error(PrefijoErrorCarga + MessageText(datos.message))
        && enviados == old(enviados) && usuarioInicializado == old(usuarioInicializado))
      ensures datos.Done? ==> (uiState == EstadoTrasInicio(respuesta)
        && enviados == old(enviados) + [PerfilDe(datos.value)]
        && usuarioInicializado == (old(usuarioInicializado) || uiState.Success?))
    {
      pendientes := pendientes - 1;
      if datos.Thrown? {
        uiState := ChatIaUiState.Error(PrefijoErrorCarga + MessageText(datos.message));
      } else {
        enviados := enviados + [PerfilDe(datos.value)];
        uiState := EstadoTrasInicio(respuesta);
        usuarioInicializado := usuarioInicializado || uiState.Success?;
      }
    }

    /** `sendPrompt`: loading until the reply comes. */
    method SendPrompt(prompt: string)
      modifies this`uiState, this`pendientes
      ensures uiState == ChatIaUiState.Loading && pendientes == old(pendientes) + 1
    {
      uiState := ChatIaUiState.Loading;
      pendientes := pendientes + 1;
    }

    /** The question's coroutine end: the question is sent and its reply decides the state. */
    method OnRespuesta(prompt: string, respuesta: Attempt<Option<string>>)
      requires pendientes > 0
      modifies this`uiState, this`pendientes, this`enviados
      ensures pendientes == old(pendientes) - 1
      ensures enviados == old(enviados) + [Pregunta(prompt)]
      ensures uiState == EstadoTrasPregunta(respuesta)
    {
      pendientes := pendientes - 1;
      enviados := enviados + [Pregunta(prompt)];
      uiState := EstadoTrasPregunta(respuesta);
    }

    /** `clearChat`: a fresh chat, and the next initialisation loads again; the ui state is kept. */
    method ClearChat()
      modifies this`enviados, this`usuarioInicializado
      ensures enviados == [] && !usuarioInicializado
    {
      enviados := [];
      usuarioInicializado := false;
    }
  }

  /** After `clearChat`, initialising the chat loads the user's data again. */
  method ReinicializarTrasLimpiar(vm: ChatIAViewModel, usuarioId: int)
    modifies vm
    ensures vm.uiState == ChatIaUiState.Loading && !vm.usuarioInicializado && vm.enviados == []
    ensures vm.pendientes == old(vm.pendientes) + 1
  {
    vm.ClearChat();
    vm.InicializarConUsuario(usuarioId);
  }

  // ---------------------------------------------------------------------
  // ChatIaScreen
  // ---------------------------------------------------------------------

  datatype ChatMessage = ChatMessage(text: string, isUser: bool, isTyping: bool)

  const Escribiendo: ChatMessage := ChatMessage("typing", false, true)
  const PrefijoError: string := "Error: "

  predicate NoEscribiendo(m: ChatMessage) { !m.isTyping }

  /** `filterNot { it.isTyping }`. */
  function SinEscribiendo(ms: seq<ChatMessage>): (r: seq<ChatMessage>)
    ensures forall i :: 0 <= i < |r| ==> !r[i].isTyping && r[i] in ms
    ensures forall i :: 0 <= i < |ms| && !ms[i].isTyping ==> ms[i] in r
  {
    Filter(ms, NoEscribiendo)
  }

  /** Removing placeholders works piecewise, so the remaining messages keep their order. */
  lemma SinEscribiendoConcat(a: seq<ChatMessage>, b: seq<ChatMessage>)
    ensures SinEscribiendo(a + b) == SinEscribiendo(a) + SinEscribiendo(b)
  {
    FilterConcat(a, b, NoEscribiendo);
  }

  /** A list without placeholders is left as it is. */
  lemma SinEscribiendoKeepsPlainLists(ms: seq<ChatMessage>)
    requires forall i :: 0 <= i < |ms| ==> !ms[i].isTyping
    ensures SinEscribiendo(ms) == ms
  {
    FilterAll(ms, NoEscribiendo);
  }

  /**
   * The `LaunchedEffect(uiState)` body: Loading adds a placeholder; a
   * success or an error drops every placeholder and adds the reply, which
   * is the AI's text or "Error: " and the message; Initial only logs.
   */
  function TrasEstado(ms: seq<ChatMessage>, st: ChatIaUiState): (r: seq<ChatMessage>)
    ensures st.Loading? ==> |r| == |ms| + 1 && r[..|ms|] == ms && r[|ms|] == Escribiendo
    ensures st.Success? || st.Error? ==> (|r| >= 1 && (forall i :: 0 <= i < |r| ==> !r[i].isTyping)
      && r[..|r| - 1] == SinEscribiendo(ms) && !r[|r| - 1].isUser)
    ensures st.Success? ==> r[|r| - 1].text == st.outputText
    ensures st.Error? ==> r[|r| - 1].text == PrefijoError + st.errorMessage
    ensures st.Initial? ==> r == ms
  {
    match st
    case Loading => ms + [Escribiendo]
    case Success(t) => SinEscribiendo(ms) + [ChatMessage(t, false, false)]
    case Error(e) => SinEscribiendo(ms) + [ChatMessage(PrefijoError + e, false, false)]
    case Initial => ms
  }

  /** A reply that follows its Loading state takes the place of that state's placeholder. */
  lemma ReplyReplacesPlaceholder(ms: seq<ChatMessage>, st: ChatIaUiState)
    requires st.Success? || st.Error?
    ensures TrasEstado(TrasEstado(ms, ChatIaUiState.Loading), st) == TrasEstado(ms, st)
  {
    SinEscribiendoConcat(ms, [Escribiendo]);
    assert SinEscribiendo([Escribiendo]) == [];
  }

  /** A question answered in a conversation without placeholders appends exactly the question and the reply. */
  lemma QuestionAndReply(ms: seq<ChatMessage>, prompt: string, t: string)
    requires forall i :: 0 <= i < |ms| ==> !ms[i].isTyping
    ensures TrasEstado(TrasEstado(ms + [ChatMessage(prompt, true, false)], ChatIaUiState.Loading), ChatIaUiState.Success(t))
      == ms + [ChatMessage(prompt, true, false), ChatMessage(t, false, false)]
  {
    var q := ms + [ChatMessage(prompt, true, false)];
    ReplyReplacesPlaceholder(q, ChatIaUiState.Success(t));
    SinEscribiendoKeepsPlainLists(q);
  }

  class ChatScreenState {
    var prompt: string
    var messages: seq<ChatMessage>
    /** The ui state the `LaunchedEffect` last ran for. */
    var visto: ChatIaUiState

    /** The first composition: empty prompt and list, and the effect runs once for the current state. */
    constructor (actual: ChatIaUiState)
      ensures prompt == "" && messages == TrasEstado([], actual) && visto == actual
    {
      prompt := "";
      messages := TrasEstado([], actual);
      visto := actual;
    }

    /** A new ui state value restarts the effect; an equal one does not. */
    method OnUiState(st: ChatIaUiState)
      modifies this`messages, this`visto
      ensures st != old(visto) ==> messages == TrasEstado(old(messages), st)
      ensures st == old(visto) ==> messages == old(messages)
      ensures visto == st
    {
      if st != visto {
        messages := TrasEstado(messages, st);
        visto := st;
      }
    }

    method OnPromptChange(nuevo: string)
      modifies this`prompt
      ensures prompt == nuevo
    {
      prompt := nuevo;
    }

    /** The send button is enabled exactly when the prompt is not blank. */
    predicate EnviarHabilitado()
      reads this
    {
      !IsBlank(prompt)
    }

    /**
     * The send click: a non-blank prompt is appended as the user's message,
     * sent and cleared; a blank one changes nothing.
     */
    method OnEnviar(vm: ChatIAViewModel)
      modifies this`messages, this`prompt, vm`uiState, vm`pendientes
      ensures old(EnviarHabilitado()) ==> (messages == old(messages) + [ChatMessage(old(prompt), true, false)]
        && prompt == "" && vm.uiState == ChatIaUiState.Loading && vm.pendientes == old(vm.pendientes) + 1)
      ensures !old(EnviarHabilitado()) ==> (messages == old(messages) && prompt == old(prompt)
        && vm.uiState == old(vm.uiState) && vm.pendientes == old(vm.pendientes))
    {
      if !IsBlank(prompt) {
        messages := messages + [ChatMessage(prompt, true, false)];
        vm.SendPrompt(prompt);
        prompt := "";
      }
    }

    /** `LaunchedEffect(usuarioId)`: the chat is initialised for the user shown. */
    method AlMostrar(vm: ChatIAViewModel, usuarioId: int)
      modifies vm
      ensures !old(vm.usuarioInicializado) ==> vm.uiState == ChatIaUiState.Loading
      ensures old(vm.usuarioInicializado) ==> unchanged(vm)
    {
      vm.InicializarConUsuario(usuarioId);
    }
  }
}
