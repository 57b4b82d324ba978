# FinTracker — a Dafny model of its view-model and form logic

FinTracker is an Android personal-finance app written in Kotlin with Jetpack
Compose. Users record expenses and incomes (*transacciones*), recurring
payments (*pagos recurrentes*), spending limits (*límites de gasto*), savings
goals (*metas de ahorro*) and categories. They also manage their profile, and
they can ask an AI advisor about their finances. This project models the
deterministic logic behind those screens and proves what that logic promises.

What is modelled, one Dafny module per Kotlin file or concern:

- **List state in the view-models.** `Gasto`, `Pago`, `Limite`, `Meta`,
  `CategoriaVm`. Each view-model is a `class` whose `uiState` field the
  handlers reassign.
  - Each repository result (`Resource.Loading | Success(data?) | Error(msg?)`)
    has a method that folds it into the list: append, replace by id, remove
    by id, or record an error and leave the list alone.
  - The requests a view-model issues are recorded in a `requests` log, so
    their contracts say which call was made with which arguments.
- **Forms.** `GastoForm`, `PagoForm`, `LimiteForm`, `MetaForm`, `MetaMAhorro`,
  `MetaMontoAhorro`, `CategoriaScreen`, `LoginForm`, `Contrasena`.
  - Remembered Compose state is a class whose fields change one at a time.
  - The validators are "first failing check wins" chains.
  - The amount-text filter (`AmountText`) and the registration regexes are
    written out as predicates.
- **Dates.** `Calendar`, `GastoList`, `DateUtil`.
  - Calendar dates are proleptic Gregorian day numbers; a date-time is a day
    plus a nanosecond of the day.
  - The day, ISO-8601 week, month and year windows of the transaction
    list, the classification of a date relative to today, the month grid,
    `parseFecha` and the id counter.
- **Aggregations.** `Saldo`, `LimiteDetalle`, `LimiteList`, `MetaDetalle`,
  `Chat`.
  - The balance, the share of a limit spent, and the progress of a goal
    with its colour band.
  - The figures the AI advisor's opening prompt reports.
- **Small state machines.** `Session` (the session store), `Soporte`,
  `Notificaciones`, `Foto`, `Divisas`, `ResetPassword`, `LoginVm`, and the
  chat list with its typing placeholders.
- **Repositories and mappers.** `UsuarioRepositorio` and
  `UsuarioRepositorioLocal` model the two user repositories as the sequence
  of emissions and server calls each flow makes. `Mappers` models the
  DTO ↔ Room-entity mappings and their round trips.

Shared pieces are defined once:

- `Wrappers`: `Option`, `Resource`, and the try/catch outcomes `Attempt` and
  `Llamada`, the second with HTTP errors told apart.
- `Text`: blankness with the JVM whitespace set, ASCII case folding,
  `split`, `toIntOrNull` and `toDoubleOrNull`.
- `ListOps`: filter, sum, find, replace and remove by id, and a stable
  descending sort.
- `Dto`: the DTO records.
- `DoubleArith`: the IEEE outcomes of a division that may have a zero
  divisor.

Money is `real`. Calls to the server, the AI service, the clock and the
platform are not modelled. Their results are parameters of the method that
handles them. Each coroutine callback is one atomic step, and a `delay`
separates two such steps.

Where the code and its comments or hints disagree, the model follows the
code:

- The change-password form checks only the length (`Contrasena.NoCharacterClassCheck`).
- The spending-limit detail counts only the type written exactly "Gasto".
- `generateUniqueId` wraps around after the largest `Int`
  (`DateUtil.CounterWraps`).
- A day that does not exist makes `parseFecha` throw. This is modelled as
  `None`, not as a precondition.

## Model

| member | source | states |
|---|---|---|
| Gasto.FiltrarTransaccionesPorFecha | app/src/main/java/ucne/edu/fintracker/presentation/gasto/GastoViewModel.kt:267-304 | the result is drawn from the list and holds exactly the transactions whose date is in the window of "Día", "Semana", "Mes" or "Año"; any other filter name returns the list unchanged |
| Gasto.WeekWindowIsIsoWeek | app/src/main/java/ucne/edu/fintracker/presentation/gasto/GastoViewModel.kt:280-287 | a date is in the "Semana" window iff it has the same ISO-8601 Monday as today |
| Gasto.WindowsNested | app/src/main/java/ucne/edu/fintracker/presentation/gasto/GastoViewModel.kt:272-300 | today's date is in the day window, the day window lies inside the week and month windows, and the month window lies inside the year window |
| Gasto.TransaccionesFiltradas | app/src/main/java/ucne/edu/fintracker/presentation/gasto/GastoViewModel.kt:56-61 | exactly the transactions that pass the date window and whose trimmed tipo equals the selected tipo, ignoring case |
| Gasto.InitialFilterKeepsAllDates | app/src/main/java/ucne/edu/fintracker/presentation/gasto/GastoViewModel.kt:56-61 | under the initial filter "Dia" (no accent) only the tipo selects, because the date filter keeps everything |
| Gasto.GastoViewModel.constructor | app/src/main/java/ucne/edu/fintracker/presentation/gasto/GastoViewModel.kt:43-54 | no current user, the default ui state, no categories, no requests |
| Gasto.GastoViewModel.Inicializar | app/src/main/java/ucne/edu/fintracker/presentation/gasto/GastoViewModel.kt:68-82 | an id ≤ 0 or the current id changes nothing; another id is recorded and starts the category fetch, the transaction load and the summary load twice |
| Gasto.GastoViewModel.OnCategorias | app/src/main/java/ucne/edu/fintracker/presentation/gasto/GastoViewModel.kt:159-179 | Loading is ignored; Success stores the list, with null read as empty; Error empties the list |
| Gasto.GastoViewModel.OnLoading | app/src/main/java/ucne/edu/fintracker/presentation/gasto/GastoViewModel.kt:186-188 | loading on and error cleared; the list is untouched |
| Gasto.GastoViewModel.OnTransacciones | app/src/main/java/ucne/edu/fintracker/presentation/gasto/GastoViewModel.kt:181-221 | Success replaces the list (null read as empty) and clears the error; Error keeps the list and stores the message or "Error desconocido" |
| Gasto.GastoViewModel.CambiarFiltro | app/src/main/java/ucne/edu/fintracker/presentation/gasto/GastoViewModel.kt:223-225 | only the filter field changes |
| Gasto.GastoViewModel.CambiarTipo | app/src/main/java/ucne/edu/fintracker/presentation/gasto/GastoViewModel.kt:227-231 | only the selected tipo changes; a known user gets one summary reload |
| Gasto.GastoViewModel.CrearTransaccion | app/src/main/java/ucne/edu/fintracker/presentation/gasto/GastoViewModel.kt:234-237 | one create request with the argument DTO |
| Gasto.GastoViewModel.OnCrear | app/src/main/java/ucne/edu/fintracker/presentation/gasto/GastoViewModel.kt:238-262 | Success appends non-null data and ends loading, leaving the error as it was; Error keeps the list |
| Gasto.GastoViewModel.ActualizarTransaccion | app/src/main/java/ucne/edu/fintracker/presentation/gasto/GastoViewModel.kt:311-313 | one update request under the DTO's own id |
| Gasto.GastoViewModel.OnActualizar | app/src/main/java/ucne/edu/fintracker/presentation/gasto/GastoViewModel.kt:315-343 | Success writes the argument DTO over the first transaction with its id; Error keeps the list and stores the message or "Error actualizando transacción" |
| Gasto.GastoViewModel.EliminarTransaccion | app/src/main/java/ucne/edu/fintracker/presentation/gasto/GastoViewModel.kt:349-351 | one delete request for the id |
| Gasto.GastoViewModel.OnEliminar | app/src/main/java/ucne/edu/fintracker/presentation/gasto/GastoViewModel.kt:352-378 | Success removes every transaction with the id and emits exactly one deletion event; Error keeps the list |
| Gasto.GastoViewModel.ObtenerTransaccionPorId | app/src/main/java/ucne/edu/fintracker/presentation/gasto/GastoViewModel.kt:306-308 | none iff no transaction has the id; otherwise a listed transaction with that id |
| Gasto.UpdateKeepsLength | app/src/main/java/ucne/edu/fintracker/presentation/gasto/GastoViewModel.kt:321-325 | an update keeps the length, and a list where no id matches stays unchanged |
| Gasto.UpdatedIsFound | app/src/main/java/ucne/edu/fintracker/presentation/gasto/GastoViewModel.kt:321-325 | after an update whose id is present, a lookup of that id finds the argument DTO |
| Gasto.DeletedIsGone | app/src/main/java/ucne/edu/fintracker/presentation/gasto/GastoViewModel.kt:358-359 | after a delete, a lookup of the id finds nothing |
| GastoList.CalcularRangoFechas | app/src/main/java/ucne/edu/fintracker/presentation/gasto/GastoListScreen.kt:213-237 | each date filter starts at midnight and ends at the last nanosecond of its day, week (starting Monday), month or year holding the selected date; any other filter name gives the selected instant twice |
| GastoList.RangoEndsBeforeNextPeriod | app/src/main/java/ucne/edu/fintracker/presentation/gasto/GastoListScreen.kt:217-232 | every date-filter range ends exactly one nanosecond before the next period begins |
| GastoList.RangoDia | app/src/main/java/ucne/edu/fintracker/presentation/gasto/GastoListScreen.kt:215-219 | a timestamp lies in the day range exactly when it is on the selected date |
| GastoList.RangoSemana | app/src/main/java/ucne/edu/fintracker/presentation/gasto/GastoListScreen.kt:220-224 | a timestamp lies in the week range exactly when its day is between the selected week's Monday and Sunday |
| GastoList.RangoMes | app/src/main/java/ucne/edu/fintracker/presentation/gasto/GastoListScreen.kt:225-229 | a timestamp lies in the month range exactly when it has the selected month and year |
| GastoList.RangoAnio | app/src/main/java/ucne/edu/fintracker/presentation/gasto/GastoListScreen.kt:230-234 | a timestamp lies in the year range exactly when it has the selected year |
| GastoList.RangoIffWindow | app/src/main/java/ucne/edu/fintracker/presentation/gasto/GastoListScreen.kt:213-237 | a timestamp lies in a date filter's range iff its date lies in the view-model's date window for the same filter |
| GastoList.EnRangoInclusive | app/src/main/java/ucne/edu/fintracker/presentation/gasto/GastoListScreen.kt:600-601 | the widened strict test (after start minus 1 ns, before end plus 1 ns) is the inclusive range test |
| GastoList.TransaccionesVisibles | app/src/main/java/ucne/edu/fintracker/presentation/gasto/GastoListScreen.kt:598-604 | each shown transaction comes from the list and passes the range and the case-insensitive tipo test, and every list transaction that passes is shown |
| GastoList.VisiblesMatchWindow | app/src/main/java/ucne/edu/fintracker/presentation/gasto/GastoListScreen.kt:598-604 | for a date filter the list screen shows the same transactions, in list order, as the view-model's date window combined with the tipo |
| GastoList.UnknownFilterShowsInstant | app/src/main/java/ucne/edu/fintracker/presentation/gasto/GastoListScreen.kt:235 | under an unknown filter name only transactions at exactly the selected instant are shown |
| GastoList.TotalConcat | app/src/main/java/ucne/edu/fintracker/presentation/gasto/GastoListScreen.kt:605 | the total shown for two lists together is the sum of their totals |
| GastoList.InicioSemana | app/src/main/java/ucne/edu/fintracker/presentation/gasto/GastoListScreen.kt:445 | the Monday on or before today |
| GastoList.FinSemana | app/src/main/java/ucne/edu/fintracker/presentation/gasto/GastoListScreen.kt:446 | six days after that Monday |
| GastoList.ObtenerFiltroPorFechaBands | app/src/main/java/ucne/edu/fintracker/presentation/gasto/GastoListScreen.kt:441-453 | "Día" iff the date is today or later, "Semana" iff it is earlier but on or after this week's Monday, "Otra" iff it is before that Monday |
| GastoList.GridOffset | app/src/main/java/ucne/edu/fintracker/presentation/gasto/GastoListScreen.kt:366-367 | the column of the month's first day, Monday 0 through Sunday 6 |
| GastoList.TotalCeldas | app/src/main/java/ucne/edu/fintracker/presentation/gasto/GastoListScreen.kt:370-372 | a multiple of 7 that holds all cells, less than a week more than needed |
| GastoList.TotalCeldasLeast | app/src/main/java/ucne/edu/fintracker/presentation/gasto/GastoListScreen.kt:370-372 | no smaller multiple of 7 holds all the cells |
| GastoList.MonthGrid | app/src/main/java/ucne/edu/fintracker/presentation/gasto/GastoListScreen.kt:374-377 | the grid has TotalCeldas cells; a cell holds a day exactly between the offset and the offset plus the month's length, and that day is its index minus the offset plus one |
| GastoList.MonthGridDayOnce | app/src/main/java/ucne/edu/fintracker/presentation/gasto/GastoListScreen.kt:374-377 | every day of the month appears in the grid exactly once |
| GastoList.MonthGridColumn | app/src/main/java/ucne/edu/fintracker/presentation/gasto/GastoListScreen.kt:366-377 | each day sits in the column of its weekday |
| GastoForm.MontoOCero | app/src/main/java/ucne/edu/fintracker/presentation/gasto/GastoScreen.kt:334 | the parsed amount when the text parses, else 0.0 |
| GastoForm.GuardarBoton | app/src/main/java/ucne/edu/fintracker/presentation/gasto/GastoScreen.kt:321-343 | no save exactly when the amount is not positive, no category is selected or its id is 0; otherwise the callback receives the tipo, the parsed amount, the category's name, the date, the notes and the user id |
| GastoForm.GuardarNeedsPositiveAmount | app/src/main/java/ucne/edu/fintracker/presentation/gasto/GastoScreen.kt:79 | text the amount filter admits reaches the callback only when it holds a digit and parses to a positive amount |
| GastoForm.CategoriasFiltradas | app/src/main/java/ucne/edu/fintracker/presentation/gasto/GastoScreen.kt:63 | exactly the categories whose tipo equals the selected tipo, ignoring case |
| GastoForm.GastoFormState.constructor | app/src/main/java/ucne/edu/fintracker/presentation/gasto/GastoScreen.kt:44-53 | the initial fields are those of the edited transaction, or the initial tipo, empty amount, now and empty notes; no category is selected |
| GastoForm.GastoFormState.SincronizarCategoria | app/src/main/java/ucne/edu/fintracker/presentation/gasto/GastoScreen.kt:56-60 | the selection becomes the category whose id is the edited transaction's, or none when nothing is edited |
| GastoForm.GastoFormState.OnMontoChange | app/src/main/java/ucne/edu/fintracker/presentation/gasto/GastoScreen.kt:78-80 | new amount text is taken iff it matches digits, an optional dot, digits |
| GastoForm.GastoFormState.OnTipoChange | app/src/main/java/ucne/edu/fintracker/presentation/gasto/GastoScreen.kt:76 | the tipo becomes the chosen one |
| GastoForm.GastoFormState.OnCategoriaSelect | app/src/main/java/ucne/edu/fintracker/presentation/gasto/GastoScreen.kt:87-90 | the chosen category becomes the selection |
| GastoForm.GastoFormState.OnFechaChange | app/src/main/java/ucne/edu/fintracker/presentation/gasto/GastoScreen.kt:93-95 | the date becomes the chosen one |
| GastoForm.GastoFormState.OnNotasChange | app/src/main/java/ucne/edu/fintracker/presentation/gasto/GastoScreen.kt:97 | the notes become the typed text |
| GastoForm.GastoFormState.Guardar | app/src/main/java/ucne/edu/fintracker/presentation/gasto/GastoScreen.kt:321-343 | the save click on the current fields: refused under the same conditions as the button, else the callback gets the current fields and a positive amount |
| AmountText.IsAmountText | app/src/main/java/ucne/edu/fintracker/presentation/pagorecurrente/PagoScreen.kt:208 | one decision procedure that answers both amount patterns: the gasto form's digits-dot-digits and the payment form's digits with an optional fraction |
| AmountText.DotSplit | app/src/main/java/ucne/edu/fintracker/presentation/gasto/GastoScreen.kt:79 | with the first dot at position k, each pattern holds iff the text before and after it is all digits |
| AmountText.AmountTextParses | app/src/main/java/ucne/edu/fintracker/presentation/gasto/GastoScreen.kt:334 | text that passes the filter parses iff it holds a digit, and its value is never negative |
| AmountText.NatTextIsAmountText | app/src/main/java/ucne/edu/fintracker/presentation/pagorecurrente/PagoScreen.kt:208 | the text of a whole number passes the filter |
| Pago.PagoViewModel.constructor | app/src/main/java/ucne/edu/fintracker/presentation/pagorecurrente/PagoViewModel.kt:26-40 | an empty list, not loading, no error, no categories and no user |
| Pago.PagoViewModel.Inicializar | app/src/main/java/ucne/edu/fintracker/presentation/pagorecurrente/PagoViewModel.kt:42-46 | records the user id and requests exactly the categories fetch |
| Pago.PagoViewModel.OnCategorias | app/src/main/java/ucne/edu/fintracker/presentation/pagorecurrente/PagoViewModel.kt:52-65 | Loading keeps the categories, Success stores the payload or an empty list for null, Error empties them |
| Pago.PagoViewModel.CargarPagosRecurrentes | app/src/main/java/ucne/edu/fintracker/presentation/pagorecurrente/PagoViewModel.kt:72-74 | requests the payments load for the user |
| Pago.PagoViewModel.OnLoadingOrError | app/src/main/java/ucne/edu/fintracker/presentation/pagorecurrente/PagoViewModel.kt:76-78 | Loading sets the flag and clears the error; Error clears the flag and stores the message or "Error desconocido"; the list is untouched |
| Pago.PagoViewModel.OnPagos | app/src/main/java/ucne/edu/fintracker/presentation/pagorecurrente/PagoViewModel.kt:75-96 | Success replaces the list (null means empty) and clears loading and error; Loading and Error as above |
| Pago.PagoViewModel.CrearPagoRecurrente | app/src/main/java/ucne/edu/fintracker/presentation/pagorecurrente/PagoViewModel.kt:102-105 | requests the create call with the given payment |
| Pago.PagoViewModel.OnCrear | app/src/main/java/ucne/edu/fintracker/presentation/pagorecurrente/PagoViewModel.kt:106-132 | a non-null payload is appended and sets pagoCreado; a null payload only ends loading; Loading and Error as above |
| Pago.PagoViewModel.ActualizarPagoRecurrente | app/src/main/java/ucne/edu/fintracker/presentation/pagorecurrente/PagoViewModel.kt:138-140 | requests the update of that id |
| Pago.PagoViewModel.OnActualizar | app/src/main/java/ucne/edu/fintracker/presentation/pagorecurrente/PagoViewModel.kt:141-165 | Success replaces every payment with that id by the payload, keeping it when the payload is null |
| Pago.PagoViewModel.EliminarPagoRecurrente | app/src/main/java/ucne/edu/fintracker/presentation/pagorecurrente/PagoViewModel.kt:170-172 | requests the delete of that id |
| Pago.PagoViewModel.OnEliminar | app/src/main/java/ucne/edu/fintracker/presentation/pagorecurrente/PagoViewModel.kt:173-196 | Success drops every payment with that id and emits exactly one deletion event; no other outcome emits one |
| Pago.UpdatedPagoIsFound | app/src/main/java/ucne/edu/fintracker/presentation/pagorecurrente/PagoViewModel.kt:146-148 | after a successful update whose payload keeps the id, looking that id up finds the payload |
| Pago.CreatedPagoIsFound | app/src/main/java/ucne/edu/fintracker/presentation/pagorecurrente/PagoViewModel.kt:111-117 | after a successful create with a fresh id, looking the id up finds the new payment |
| PagoForm.ValidarDatos | app/src/main/java/ucne/edu/fintracker/presentation/pagorecurrente/PagoScreen.kt:375-386 | valid iff the amount is not blank, parses and is positive, a category is chosen, and the frequency and start date are not blank; each failing check gives its own message, in the source's order |
| PagoForm.FechaFinOpcional | app/src/main/java/ucne/edu/fintracker/presentation/pagorecurrente/PagoScreen.kt:405 | a blank end date becomes null, any other is kept |
| PagoForm.EstadoPago.constructor | app/src/main/java/ucne/edu/fintracker/presentation/pagorecurrente/PagoScreen.kt:44-51 | the edited payment's amount, frequency and dates, or empty text; no category |
| PagoForm.EstadoPago.SincronizarCategoria | app/src/main/java/ucne/edu/fintracker/presentation/pagorecurrente/PagoScreen.kt:54-57 | with an edited payment and a non-empty category list, the selection becomes the category with the payment's id; otherwise it is unchanged |
| PagoForm.EstadoPago.OnMontoChange | app/src/main/java/ucne/edu/fintracker/presentation/pagorecurrente/PagoScreen.kt:207-211 | new amount text is taken iff it matches digits with an optional dot-and-digits fraction |
| PagoForm.EstadoPago.LimpiarFormulario | app/src/main/java/ucne/edu/fintracker/presentation/pagorecurrente/PagoScreen.kt:414-420 | all five fields are cleared |
| PagoForm.EstadoPago.ManejarGuardado | app/src/main/java/ucne/edu/fintracker/presentation/pagorecurrente/PagoScreen.kt:388-412 | an invalid form makes no call and changes nothing; a valid one passes the parsed amount, category id, frequency, start date, optional end date and user id, then clears a new form and leaves an edited one |
| PagoForm.TwoDigits | app/src/main/java/ucne/edu/fintracker/presentation/pagorecurrente/PagoScreen.kt:430-431 | a number from 1 to 99, padded to two digits, reads back as itself |
| PagoForm.FourDigits | app/src/main/java/ucne/edu/fintracker/presentation/pagorecurrente/PagoScreen.kt:432 | a four-digit year is written with four digits that read back as it |
| PagoForm.FechaPickerRoundTrip | app/src/main/java/ucne/edu/fintracker/presentation/pagorecurrente/PagoScreen.kt:429-433 | the picker's text for an actual date of a four-digit year parses back to that date |
| Limite.LimiteViewModel.constructor | app/src/main/java/ucne/edu/fintracker/presentation/limitegasto/LimiteViewModel.kt:27-37 | an empty list, not loading, no error, no categories and no user |
| Limite.LimiteViewModel.Inicializar | app/src/main/java/ucne/edu/fintracker/presentation/limitegasto/LimiteViewModel.kt:40-45 | records the user id, then requests the categories fetch and the limits load, in that order |
| Limite.LimiteViewModel.OnCategorias | app/src/main/java/ucne/edu/fintracker/presentation/limitegasto/LimiteViewModel.kt:47-64 | Loading keeps the categories, Success stores the payload or an empty list for null, Error empties them |
| Limite.LimiteViewModel.CargarLimites | app/src/main/java/ucne/edu/fintracker/presentation/limitegasto/LimiteViewModel.kt:66-68 | requests the limits load for the user |
| Limite.LimiteViewModel.OnLoadingOrError | app/src/main/java/ucne/edu/fintracker/presentation/limitegasto/LimiteViewModel.kt:70-71 | Loading sets the flag and clears the error; Error clears the flag and stores the message or "Error desconocido"; the list is untouched |
| Limite.LimiteViewModel.OnLimites | app/src/main/java/ucne/edu/fintracker/presentation/limitegasto/LimiteViewModel.kt:69-93 | Success replaces the list (null means empty) and clears loading and error; Loading and Error as above |
| Limite.LimiteViewModel.CrearLimite | app/src/main/java/ucne/edu/fintracker/presentation/limitegasto/LimiteViewModel.kt:95-97 | requests the create call with the given limit |
| Limite.LimiteViewModel.OnCrear | app/src/main/java/ucne/edu/fintracker/presentation/limitegasto/LimiteViewModel.kt:98-126 | a non-null payload is appended, without setting limiteCreado; a null payload only ends loading; Loading and Error as above |
| Limite.LimiteViewModel.ActualizarLimite | app/src/main/java/ucne/edu/fintracker/presentation/limitegasto/LimiteViewModel.kt:128-130 | requests the update of that id |
| Limite.LimiteViewModel.OnActualizar | app/src/main/java/ucne/edu/fintracker/presentation/limitegasto/LimiteViewModel.kt:131-158 | Success replaces every limit with that id by the payload, keeping it when the payload is null |
| Limite.LimiteViewModel.EliminarLimite | app/src/main/java/ucne/edu/fintracker/presentation/limitegasto/LimiteViewModel.kt:160-162 | requests the delete of that id |
| Limite.LimiteViewModel.OnEliminar | app/src/main/java/ucne/edu/fintracker/presentation/limitegasto/LimiteViewModel.kt:163-189 | Success drops every limit with that id; Loading and Error as above |
| Limite.UpdatedLimiteIsFound | app/src/main/java/ucne/edu/fintracker/presentation/limitegasto/LimiteViewModel.kt:136-138 | after a successful update whose payload keeps the id, looking that id up finds the payload |
| Limite.CreatedLimiteIsFound | app/src/main/java/ucne/edu/fintracker/presentation/limitegasto/LimiteViewModel.kt:102-109 | after a successful create with a fresh id, looking the id up finds the new limit |
| LimiteForm.CategoriasGasto | app/src/main/java/ucne/edu/fintracker/presentation/limitegasto/LimiteScreen.kt:36-38 | exactly the categories whose tipo is "Gasto", ignoring case |
| LimiteForm.ValidarDatosLimite | app/src/main/java/ucne/edu/fintracker/presentation/limitegasto/LimiteScreen.kt:293-305 | valid iff a category is chosen, the amount is not blank, parses and is positive, and a period is chosen; each failing check gives its own message, in the source's order |
| LimiteForm.EstadoLimite.constructor | app/src/main/java/ucne/edu/fintracker/presentation/limitegasto/LimiteScreen.kt:40-46 | no category, and the edited limit's amount text and period, or empty text |
| LimiteForm.EstadoLimite.SincronizarCategoria | app/src/main/java/ucne/edu/fintracker/presentation/limitegasto/LimiteScreen.kt:48-54 | with an edited limit and some "Gasto" categories, the selection becomes the one among them with the limit's category id; otherwise it is unchanged |
| LimiteForm.EstadoLimite.OnMontoChange | app/src/main/java/ucne/edu/fintracker/presentation/limitegasto/LimiteScreen.kt:162-165 | the amount field takes any text |
| LimiteForm.EstadoLimite.LimpiarFormularioLimite | app/src/main/java/ucne/edu/fintracker/presentation/limitegasto/LimiteScreen.kt:331-335 | the three fields are cleared |
| LimiteForm.EstadoLimite.ManejarGuardadoLimite | app/src/main/java/ucne/edu/fintracker/presentation/limitegasto/LimiteScreen.kt:307-329 | an invalid form makes no call and changes nothing; a valid one passes the parsed amount, category id, period and user id, then clears a new form and leaves an edited one |
| LimiteDetalle.GastadoIgnoresOthers | app/src/main/java/ucne/edu/fintracker/presentation/limitegasto/LimiteDetalleScreen.kt:42-46 | a transaction of another category, or whose tipo is not exactly "Gasto", does not change the amount spent |
| LimiteDetalle.GastadoAddsCounted | app/src/main/java/ucne/edu/fintracker/presentation/limitegasto/LimiteDetalleScreen.kt:42-46 | a counted transaction adds its amount to the amount spent |
| LimiteDetalle.Porcentaje | app/src/main/java/ucne/edu/fintracker/presentation/limitegasto/LimiteDetalleScreen.kt:48 | the percentage is capped at 100 but not floored; with a zero limit it is 100, negative infinity or NaN as the amount spent is positive, negative or zero, and never positive infinity |
| LimiteDetalle.PorcentajeInRange | app/src/main/java/ucne/edu/fintracker/presentation/limitegasto/LimiteDetalleScreen.kt:48 | with a positive limit and a nonnegative amount spent the percentage is finite and within 0..100 |
| LimiteDetalle.IconoMostrado | app/src/main/java/ucne/edu/fintracker/presentation/limitegasto/LimiteDetalleScreen.kt:101 | a blank icon shows the banknote emoji, any other is shown as it is |
| LimiteDetalle.DialogoEliminar.constructor | app/src/main/java/ucne/edu/fintracker/presentation/limitegasto/LimiteDetalleScreen.kt:38 | the dialog starts closed and nothing is confirmed |
| LimiteDetalle.DialogoEliminar.OnEliminarClick | app/src/main/java/ucne/edu/fintracker/presentation/limitegasto/LimiteDetalleScreen.kt:142 | the button only opens the dialog |
| LimiteDetalle.DialogoEliminar.OnConfirmar | app/src/main/java/ucne/edu/fintracker/presentation/limitegasto/LimiteDetalleScreen.kt:159-164 | confirming closes the dialog and runs the delete callback exactly once |
| LimiteDetalle.DialogoEliminar.OnCancelar | app/src/main/java/ucne/edu/fintracker/presentation/limitegasto/LimiteDetalleScreen.kt:156-171 | cancelling or dismissing closes the dialog without a delete |
| LimiteList.VistaDe | app/src/main/java/ucne/edu/fintracker/presentation/limitegasto/LimiteListScreen.kt:78-124 | the spinner iff loading; otherwise the error text iff there is an error; otherwise the empty message iff there are no limits; else the list |
| LimiteList.FilaDe | app/src/main/java/ucne/edu/fintracker/presentation/limitegasto/LimiteListScreen.kt:106-117 | a row shows the first category with the limit's category id, or "Sin categoría" and the question-mark icon, the amount spent or 0, and the capped percentage of the limit |
| Meta.Seleccion | app/src/main/java/ucne/edu/fintracker/presentation/metaahorro/MetaViewModel.kt:48 | no id selects nothing; otherwise the first goal with that id, which is in the list |
| Meta.ConMontoAhorrado | app/src/main/java/ucne/edu/fintracker/presentation/metaahorro/MetaViewModel.kt:151-154 | the goal with the new saved amount and date; every other field is the same |
| Meta.MetaViewModel.constructor | app/src/main/java/ucne/edu/fintracker/presentation/metaahorro/MetaViewModel.kt:24-39 | user id 0, an empty list, not loading, no error, nothing created or selected |
| Meta.MetaViewModel.SetUsuarioId | app/src/main/java/ucne/edu/fintracker/presentation/metaahorro/MetaViewModel.kt:26-29 | stores the user id |
| Meta.MetaViewModel.CargarMetas | app/src/main/java/ucne/edu/fintracker/presentation/metaahorro/MetaViewModel.kt:42-47 | loading on and error cleared, then the goals fetch for the given user |
| Meta.MetaViewModel.OnMetasCargadas | app/src/main/java/ucne/edu/fintracker/presentation/metaahorro/MetaViewModel.kt:47-65 | a fetched list replaces the goals and selects the goal with the given id, or none; an exception keeps the list and reports "Error: " and its message |
| Meta.MetaViewModel.ObtenerMetas | app/src/main/java/ucne/edu/fintracker/presentation/metaahorro/MetaViewModel.kt:69-71 | none iff no goal has the id; otherwise a goal of the list with that id |
| Meta.MetaViewModel.CrearMeta | app/src/main/java/ucne/edu/fintracker/presentation/metaahorro/MetaViewModel.kt:73-79 | the goal is sent with its user id replaced by the argument |
| Meta.MetaViewModel.OnLoadingOrError | app/src/main/java/ucne/edu/fintracker/presentation/metaahorro/MetaViewModel.kt:81-84 | Loading sets the flag and clears the error; Error clears the flag and stores the message or "Error desconocido"; the list is untouched |
| Meta.MetaViewModel.OnCrear | app/src/main/java/ucne/edu/fintracker/presentation/metaahorro/MetaViewModel.kt:80-110 | a non-null payload is appended and sets metaCreada; a null payload only ends loading; Loading and Error as above |
| Meta.MetaViewModel.ActualizarMeta | app/src/main/java/ucne/edu/fintracker/presentation/metaahorro/MetaViewModel.kt:116-119 | the update is sent with the view-model's own user id, not the goal's |
| Meta.MetaViewModel.OnActualizar | app/src/main/java/ucne/edu/fintracker/presentation/metaahorro/MetaViewModel.kt:120-144 | Success requests a reload for the stored user, ends loading and clears the selection, leaving the list to the reload; Loading and Error request nothing |
| Meta.MetaViewModel.ActualizarMontoAhorrado | app/src/main/java/ucne/edu/fintracker/presentation/metaahorro/MetaViewModel.kt:149-156 | an unknown id sends nothing; otherwise the goal is sent again with the saved amount and its date replaced |
| Meta.MetaViewModel.EliminarMeta | app/src/main/java/ucne/edu/fintracker/presentation/metaahorro/MetaViewModel.kt:158-160 | requests the delete of that id |
| Meta.MetaViewModel.OnEliminar | app/src/main/java/ucne/edu/fintracker/presentation/metaahorro/MetaViewModel.kt:161-183 | Success drops every goal with that id; Loading and Error as above |
| Meta.DeletedMetaIsGone | app/src/main/java/ucne/edu/fintracker/presentation/metaahorro/MetaViewModel.kt:166 | after a delete no goal with that id remains |
| Meta.MontoAhorradoReplaces | app/src/main/java/ucne/edu/fintracker/presentation/metaahorro/MetaViewModel.kt:149-156 | saving an amount twice keeps only the second: the amount is replaced, not added |
| MetaForm.MetaFormState.constructor | app/src/main/java/ucne/edu/fintracker/presentation/metaahorro/MetaScreen.kt:43-54 | the edited goal's name, target text, end date and image, else empty text, now and no image; the contribution switch is on iff the goal has a recurring contribution |
| MetaForm.MetaFormState.OnNombreChange | app/src/main/java/ucne/edu/fintracker/presentation/metaahorro/MetaScreen.kt:136 | the name becomes the typed text |
| MetaForm.MetaFormState.OnMontoChange | app/src/main/java/ucne/edu/fintracker/presentation/metaahorro/MetaScreen.kt:143 | the target field takes any text |
| MetaForm.MetaFormState.OnFechaChange | app/src/main/java/ucne/edu/fintracker/presentation/metaahorro/MetaScreen.kt:152 | the end date becomes the chosen one |
| MetaForm.MetaFormState.OnContribucionChange | app/src/main/java/ucne/edu/fintracker/presentation/metaahorro/MetaScreen.kt:166 | the switch takes the new value |
| MetaForm.MetaFormState.OnImagenElegida | app/src/main/java/ucne/edu/fintracker/presentation/metaahorro/MetaScreen.kt:56-63 | a chosen image is remembered and reported; a cancelled pick changes and reports nothing |
| MetaForm.MetaFormState.Guardar | app/src/main/java/ucne/edu/fintracker/presentation/metaahorro/MetaScreen.kt:95-116 | saved iff the name and target are not blank; the callback gets the fields with an unparseable target as 0; a new form is reset to empty text, now, no contribution and no image; an edited one keeps its fields |
| MetaForm.UnparseableTargetIsZero | app/src/main/java/ucne/edu/fintracker/presentation/metaahorro/MetaScreen.kt:97-100 | any non-blank target that is not a number passes the guard and is saved as 0 |
| MetaDetalle.MontoAhorrado | app/src/main/java/ucne/edu/fintracker/presentation/metaahorro/MetaDetalleScreen.kt:120 | the saved amount, or 0 when there is none |
| MetaDetalle.PorcentajeProgreso | app/src/main/java/ucne/edu/fintracker/presentation/metaahorro/MetaDetalleScreen.kt:121-123 | 0 for a target that is not positive; otherwise the saved share in percent, floored at 0 and not capped |
| MetaDetalle.ProgresoCompleto | app/src/main/java/ucne/edu/fintracker/presentation/metaahorro/MetaDetalleScreen.kt:121-123 | with a positive target, progress reaches 100 iff the saved amount reaches the target |
| MetaDetalle.ProgresoMonotone | app/src/main/java/ucne/edu/fintracker/presentation/metaahorro/MetaDetalleScreen.kt:121-123 | progress never decreases as the saved amount grows |
| MetaDetalle.ColorDe | app/src/main/java/ucne/edu/fintracker/presentation/metaahorro/MetaDetalleScreen.kt:125-129 | orange iff progress is at most 50, yellow iff it is above 50 and at most 90, green iff above 90 |
| MetaDetalle.ColorMonotone | app/src/main/java/ucne/edu/fintracker/presentation/metaahorro/MetaDetalleScreen.kt:125-129 | a higher progress never moves the color back: yellow never becomes orange, green stays green |
| MetaDetalle.FraccionBarra | app/src/main/java/ucne/edu/fintracker/presentation/metaahorro/MetaDetalleScreen.kt:146 | the bar's fill is at most 1, nonnegative for nonnegative progress, exactly 1 iff progress reaches 100, and progress / 100 below that |
| MetaDetalle.PorcentajeEntero | app/src/main/java/ucne/edu/fintracker/presentation/metaahorro/MetaDetalleScreen.kt:155 | the whole percentage shown is the floor of a nonnegative progress below the largest Int, and the largest Int from there on |
| MetaDetalle.HugeProgressIsClamped | app/src/main/java/ucne/edu/fintracker/presentation/metaahorro/MetaDetalleScreen.kt:155 | 30,000,000 saved against a target of 1 shows 2147483647 |
| MetaDetalle.DialogoEliminarMeta.constructor | app/src/main/java/ucne/edu/fintracker/presentation/metaahorro/MetaDetalleScreen.kt:37 | the dialog starts closed and no callback has run |
| MetaDetalle.DialogoEliminarMeta.OnEliminarClick | app/src/main/java/ucne/edu/fintracker/presentation/metaahorro/MetaDetalleScreen.kt:195 | the button only opens the dialog |
| MetaDetalle.DialogoEliminarMeta.OnConfirmar | app/src/main/java/ucne/edu/fintracker/presentation/metaahorro/MetaDetalleScreen.kt:213-218 | confirming closes the dialog and runs onEliminarConfirmado and then onEliminarClick |
| MetaDetalle.DialogoEliminarMeta.OnCancelar | app/src/main/java/ucne/edu/fintracker/presentation/metaahorro/MetaDetalleScreen.kt:209-228 | cancelling or dismissing closes the dialog and runs no callback |
| MetaMAhorro.GuardarButton | app/src/main/java/ucne/edu/fintracker/presentation/metaahorro/MetaMAhorroScreen.kt:161-181 | accepted iff the text parses to a positive amount; then the callback gets that amount and the date, and the screen goes to the user's goal list |
| MetaMAhorro.BlankIsRejected | app/src/main/java/ucne/edu/fintracker/presentation/metaahorro/MetaMAhorroScreen.kt:171-172 | blank text is always rejected |
| MetaMAhorro.MetaMAhorroState.constructor | app/src/main/java/ucne/edu/fintracker/presentation/metaahorro/MetaMAhorroScreen.kt:44-45 | the amount starts empty and the date is the goal's last saving date, or now |
| MetaMAhorro.MetaMAhorroState.OnMontoChange | app/src/main/java/ucne/edu/fintracker/presentation/metaahorro/MetaMAhorroScreen.kt:78 | the amount becomes the typed text |
| MetaMAhorro.MetaMAhorroState.OnFechaSeleccionada | app/src/main/java/ucne/edu/fintracker/presentation/metaahorro/MetaMAhorroScreen.kt:89 | the date becomes the chosen one |
| MetaMAhorro.MetaMAhorroState.Guardar | app/src/main/java/ucne/edu/fintracker/presentation/metaahorro/MetaMAhorroScreen.kt:161-181 | the click on the current fields, accepted under the same rule with a positive amount, the current date and the goal-list route |
| MetaMontoAhorro.MetaMontoAhorroState.constructor | app/src/main/java/ucne/edu/fintracker/presentation/metaahorro/MetaAhorroScreen.kt:40-41 | the amount starts empty and the date is now |
| MetaMontoAhorro.MetaMontoAhorroState.OnMontoChange | app/src/main/java/ucne/edu/fintracker/presentation/metaahorro/MetaAhorroScreen.kt:145 | the amount becomes the typed text |
| MetaMontoAhorro.MetaMontoAhorroState.OnFechaSeleccionada | app/src/main/java/ucne/edu/fintracker/presentation/metaahorro/MetaAhorroScreen.kt:161 | the date becomes the chosen one |
| MetaMontoAhorro.MetaMontoAhorroState.Guardar | app/src/main/java/ucne/edu/fintracker/presentation/metaahorro/MetaAhorroScreen.kt:76-83 | saved iff the text is not blank, the amount parsed or 0 and the date; then the fields reset to empty text and now; a blank text changes nothing |
| CategoriaVm.CategoriasDefault | app/src/main/java/ucne/edu/fintracker/presentation/categoria/CategoriaViewModel.kt:71-77 | five "Gasto" categories with distinct names, all owned by the user |
| CategoriaVm.CategoriasParaCrear | app/src/main/java/ucne/edu/fintracker/presentation/categoria/CategoriaViewModel.kt:79-81 | exactly the defaults whose name the user does not have yet, at most five |
| CategoriaVm.ParaCrearIdempotent | app/src/main/java/ucne/edu/fintracker/presentation/categoria/CategoriaViewModel.kt:62-91 | once the missing defaults are created, a second round finds none to create |
| CategoriaVm.CategoriasPorFiltro | app/src/main/java/ucne/edu/fintracker/presentation/categoria/CategoriaViewModel.kt:93-100 | a blank filter returns every category; any other returns exactly those whose tipo equals it, case included |
| CategoriaVm.TipoDeTab | app/src/main/java/ucne/edu/fintracker/presentation/categoria/CategoriaViewModel.kt:189 | tab 0 is "Gasto" and any other tab is "Ingreso" |
| CategoriaVm.CategoriasPorTab | app/src/main/java/ucne/edu/fintracker/presentation/categoria/CategoriaViewModel.kt:186-191 | exactly the categories whose tipo is the selected tab's, compared exactly |
| CategoriaVm.CategoriaViewModel.constructor | app/src/main/java/ucne/edu/fintracker/presentation/categoria/CategoriaViewModel.kt:26-28 | no user, the default ui state, no user initialised and nothing requested |
| CategoriaVm.CategoriaViewModel.SetUsuarioId | app/src/main/java/ucne/edu/fintracker/presentation/categoria/CategoriaViewModel.kt:31-58 | id 0 is ignored; a new id is stored and emitted once to the collectors; the current id again emits nothing |
| CategoriaVm.CategoriaViewModel.InicializarCategoriasPorDefecto | app/src/main/java/ucne/edu/fintracker/presentation/categoria/CategoriaViewModel.kt:62-91 | an initialised user, or a load that never succeeded, changes nothing; otherwise one create request per missing default, in order, and the user is marked initialised |
| CategoriaVm.CategoriaViewModel.FetchCategorias | app/src/main/java/ucne/edu/fintracker/presentation/categoria/CategoriaViewModel.kt:102-107 | id 0 stores "Usuario inválido" and ends loading without a fetch; any other id fetches |
| CategoriaVm.CategoriaViewModel.OnCategorias | app/src/main/java/ucne/edu/fintracker/presentation/categoria/CategoriaViewModel.kt:108-131 | a list replaces the categories and clears loading, the error and the filter; a null list clears loading and the filter; an error stores its message, null included; Loading sets the flag |
| CategoriaVm.CategoriaViewModel.SaveCategoria | app/src/main/java/ucne/edu/fintracker/presentation/categoria/CategoriaViewModel.kt:135-152 | id 0 stores the save error and sends nothing; otherwise the form's fields go out as a new category and loading starts |
| CategoriaVm.CategoriaViewModel.OnGuardado | app/src/main/java/ucne/edu/fintracker/presentation/categoria/CategoriaViewModel.kt:152-178 | a returned category is appended and the form resets to empty name, "Gasto", empty icon and "FFFFFF"; every Success, even with a null payload, refetches and runs onSuccess once; other outcomes neither |
| CategoriaVm.CategoriaViewModel.OnTabSelected | app/src/main/java/ucne/edu/fintracker/presentation/categoria/CategoriaViewModel.kt:182-184 | only the tab index changes |
| CategoriaVm.CategoriaViewModel.OnNombreChange | app/src/main/java/ucne/edu/fintracker/presentation/categoria/CategoriaViewModel.kt:193-195 | only the name changes |
| CategoriaVm.CategoriaViewModel.OnTipoChange | app/src/main/java/ucne/edu/fintracker/presentation/categoria/CategoriaViewModel.kt:197-199 | only the tipo changes |
| CategoriaVm.CategoriaViewModel.OnFiltroTipoChange | app/src/main/java/ucne/edu/fintracker/presentation/categoria/CategoriaViewModel.kt:201-203 | only the filter changes |
| CategoriaVm.CategoriaViewModel.LimpiarFiltro | app/src/main/java/ucne/edu/fintracker/presentation/categoria/CategoriaViewModel.kt:205-211 | only the filter is cleared, after which the filtered list is every category |
| CategoriaVm.CategoriaViewModel.OnIconoChange | app/src/main/java/ucne/edu/fintracker/presentation/categoria/CategoriaViewModel.kt:213-215 | only the icon changes |
| CategoriaVm.CategoriaViewModel.OnColorChange | app/src/main/java/ucne/edu/fintracker/presentation/categoria/CategoriaViewModel.kt:217-219 | only the colour changes |
| CategoriaVm.CreateRequests | app/src/main/java/ucne/edu/fintracker/presentation/categoria/CategoriaViewModel.kt:83-87 | one create request per category, in order |
| CategoriaScreen.HandleGuardarClick | app/src/main/java/ucne/edu/fintracker/presentation/categoria/CategoriaScreen.kt:351-372 | the callback runs iff name, icon and colour are all non-blank; otherwise the first blank field, in that order, names the toast |
| CategoriaScreen.GetIconos | app/src/main/java/ucne/edu/fintracker/presentation/categoria/CategoriaScreen.kt:374-385 | the 15 base icons, followed by the 26 extras when more are shown |
| CategoriaScreen.GetColores | app/src/main/java/ucne/edu/fintracker/presentation/categoria/CategoriaScreen.kt:387-394 | the 6 base colours, followed by the 12 extras when more are shown |
| CategoriaScreen.MasKeepsBase | app/src/main/java/ucne/edu/fintracker/presentation/categoria/CategoriaScreen.kt:384 | showing more only adds choices: every base icon and colour stays offered |
| CategoriaScreen.Chunked | app/src/main/java/ucne/edu/fintracker/presentation/categoria/CategoriaScreen.kt:206 | rows whose concatenation is the list, each of 1 to n elements, all but the last exactly n |
| CategoriaScreen.IconGridRows | app/src/main/java/ucne/edu/fintracker/presentation/categoria/CategoriaScreen.kt:199-223 | every row of the icon grid holds 1 to 4 icons, and its icons plus its spacers always make 4 |
| LoginForm.IsEmail | app/src/main/java/ucne/edu/fintracker/presentation/login/LoginScreen.kt:300 | decides the email pattern exactly |
| LoginForm.EmailSplit | app/src/main/java/ucne/edu/fintracker/presentation/login/LoginScreen.kt:300 | with the first '@' and the last '.', the pattern holds iff a non-empty local part, a non-empty domain and a 2 to 6 letter ending surround them, each of its allowed characters |
| LoginForm.EmailNotBlank | app/src/main/java/ucne/edu/fintracker/presentation/login/ResetPasswordViewModel.kt:80-83 | text matching the email pattern is never blank, so the blank test adds nothing |
| LoginForm.LoginFormState.constructor | app/src/main/java/ucne/edu/fintracker/presentation/login/LoginScreen.kt:149-150 | both error flags start off |
| LoginForm.LoginFormState.OnEmailChange | app/src/main/java/ucne/edu/fintracker/presentation/login/LoginScreen.kt:156-159 | editing the email clears only its flag |
| LoginForm.LoginFormState.OnPasswordChange | app/src/main/java/ucne/edu/fintracker/presentation/login/LoginScreen.kt:184-187 | editing the password clears only its flag |
| LoginForm.LoginFormState.OnLoginClick | app/src/main/java/ucne/edu/fintracker/presentation/login/LoginScreen.kt:240-245 | each flag is set iff its field is blank, and the form submits iff neither is blank |
| LoginForm.RegisterFormState.constructor | app/src/main/java/ucne/edu/fintracker/presentation/login/LoginScreen.kt:294-297 | all four error flags start off |
| LoginForm.RegisterFormState.OnNombreChange | app/src/main/java/ucne/edu/fintracker/presentation/login/LoginScreen.kt:307-310 | editing the name clears only its flag |
| LoginForm.RegisterFormState.OnApellidoChange | app/src/main/java/ucne/edu/fintracker/presentation/login/LoginScreen.kt:335 | editing the surname clears only its flag |
| LoginForm.RegisterFormState.OnEmailChange | app/src/main/java/ucne/edu/fintracker/presentation/login/LoginScreen.kt:361 | editing the email clears only its flag |
| LoginForm.RegisterFormState.OnPasswordChange | app/src/main/java/ucne/edu/fintracker/presentation/login/LoginScreen.kt:387 | editing the password clears only its flag |
| LoginForm.RegisterFormState.OnRegisterClick | app/src/main/java/ucne/edu/fintracker/presentation/login/LoginScreen.kt:423-432 | name and surname are flagged iff blank, email and password iff they fail their patterns, and the form submits iff all four pass |
| LoginForm.EmailExamples | app/src/main/java/ucne/edu/fintracker/presentation/login/LoginScreen.kt:300 | a plain address matches; one whose ending has seven letters does not |
| LoginVm.NuevoUsuario | app/src/main/java/ucne/edu/fintracker/presentation/login/LoginViewModel.kt:61-69 | the new user has id 0, currency "DOP", the form's name, surname, email and password, no photo and a zero balance |
| LoginVm.RegistroCallback | app/src/main/java/ucne/edu/fintracker/presentation/login/LoginViewModel.kt:70-74 | onSuccess iff register returns; otherwise onError with the exception |
| LoginVm.LoginViewModel.constructor | app/src/main/java/ucne/edu/fintracker/presentation/login/LoginViewModel.kt:23-26 | the default state and no logged-in user |
| LoginVm.LoginViewModel.Login | app/src/main/java/ucne/edu/fintracker/presentation/login/LoginViewModel.kt:28-56 | the first user whose email and password equal the form's exactly is remembered, its id (null as 0) goes to the state and to the session store, and the error flag clears; no match or an exception sets the flag, forgets the user and leaves the store |
| LoginVm.LoginViewModel.OnLoginEmailChange | app/src/main/java/ucne/edu/fintracker/presentation/login/LoginViewModel.kt:93-95 | only the login email changes |
| LoginVm.LoginViewModel.OnLoginPasswordChange | app/src/main/java/ucne/edu/fintracker/presentation/login/LoginViewModel.kt:97-99 | only the login password changes |
| LoginVm.LoginViewModel.OnRegisterNombreChange | app/src/main/java/ucne/edu/fintracker/presentation/login/LoginViewModel.kt:101-103 | only the registration name changes |
| LoginVm.LoginViewModel.OnRegisterApellidoChange | app/src/main/java/ucne/edu/fintracker/presentation/login/LoginViewModel.kt:106-108 | only the registration surname changes |
| LoginVm.LoginViewModel.OnRegisterEmailChange | app/src/main/java/ucne/edu/fintracker/presentation/login/LoginViewModel.kt:111-113 | only the registration email changes |
| LoginVm.LoginViewModel.OnRegisterPasswordChange | app/src/main/java/ucne/edu/fintracker/presentation/login/LoginViewModel.kt:115-117 | only the registration password changes |
| LoginVm.LoginViewModel.OnResetEmailChange | app/src/main/java/ucne/edu/fintracker/presentation/login/LoginViewModel.kt:120-122 | the reset email changes and the reset outcome is cleared |
| LoginVm.LoginViewModel.ChangeTab | app/src/main/java/ucne/edu/fintracker/presentation/login/LoginViewModel.kt:125-127 | only the tab index changes |
| ResetPassword.IsValidEmail | app/src/main/java/ucne/edu/fintracker/presentation/login/ResetPasswordViewModel.kt:80-83 | valid iff the email matches the pattern |
| ResetPassword.ResetPasswordViewModel.constructor | app/src/main/java/ucne/edu/fintracker/presentation/login/ResetPasswordViewModel.kt:19 | the default state and no request |
| ResetPassword.ResetPasswordViewModel.OnEmailChange | app/src/main/java/ucne/edu/fintracker/presentation/login/ResetPasswordViewModel.kt:22-30 | the email changes and its flag and the error are cleared |
| ResetPassword.ResetPasswordViewModel.ResetPassword | app/src/main/java/ucne/edu/fintracker/presentation/login/ResetPasswordViewModel.kt:32-46 | an invalid email is flagged with its message and nothing is fetched; a valid one starts loading, clears the error and fetches the users |
| ResetPassword.ResetPasswordViewModel.OnUsuarios | app/src/main/java/ucne/edu/fintracker/presentation/login/ResetPasswordViewModel.kt:45-76 | no account with that email, ignoring case, ends with "No se encontró ninguna cuenta con ese email"; a match ends with the email marked sent; an exception ends with its message after the prefix |
| ResetPassword.ResetPasswordViewModel.ClearState | app/src/main/java/ucne/edu/fintracker/presentation/login/ResetPasswordViewModel.kt:85-87 | back to the default state |
| Session.DataLogin.constructor | app/src/main/java/ucne/edu/fintracker/presentation/login/DataLogin.kt:12-16 | a store with nothing written |
| Session.DataLogin.GuardarUsuarioId | app/src/main/java/ucne/edu/fintracker/presentation/login/DataLogin.kt:18-23 | writes the id and marks the session active, so the id then reads back |
| Session.DataLogin.ObtenerUsuarioId | app/src/main/java/ucne/edu/fintracker/presentation/login/DataLogin.kt:25-33 | the stored id iff the session flag is true and an id is stored; a missing flag counts as false |
| Session.DataLogin.LimpiarSesion | app/src/main/java/ucne/edu/fintracker/presentation/login/DataLogin.kt:35-41 | only the flag is set to false; the last id is kept but no longer read back |
| Session.DataLogin.VerificarSesionActiva | app/src/main/java/ucne/edu/fintracker/presentation/login/DataLogin.kt:43-46 | the flag, false when absent |
| Session.DataLogin.VerificarSesion | app/src/main/java/ucne/edu/fintracker/presentation/navegation/FinTrackerNavHost.kt:837-840 | logged in iff the session is active and a non-zero id is stored |
| Session.FreshStoreHasNoSession | app/src/main/java/ucne/edu/fintracker/presentation/login/DataLogin.kt:25-46 | a store nothing was written to has no id, no active session and no login |
| Session.IndiceUsuario | app/src/main/java/ucne/edu/fintracker/repository/LoginRepository.kt:14 | the position of the first user whose email and password both equal the input, or none when no user matches |
| Session.BuscarUsuario | app/src/main/java/ucne/edu/fintracker/repository/LoginRepository.kt:14 | none iff no user matches exactly; otherwise a matching user of the list with no match before it |
| Session.Login | app/src/main/java/ucne/edu/fintracker/repository/LoginRepository.kt:12-21 | returns the first exact match and saves its id (null as 0) as the active session; with no match the store is untouched |
| Session.LoginIsCaseSensitive | app/src/main/java/ucne/edu/fintracker/repository/LoginRepository.kt:14 | an email differing only in letter case does not log in |
| Soporte.ValidarSoporte | app/src/main/java/ucne/edu/fintracker/presentation/ajustes/SoporteViewModel.kt:32-73 | no error iff the subject and the address are not blank, the address is valid and the message is not blank; otherwise the first failing check, in that order, names the error |
| Soporte.SoporteViewModel.constructor | app/src/main/java/ucne/edu/fintracker/presentation/ajustes/SoporteViewModel.kt:17-18 | the default state and no send in progress |
| Soporte.SoporteViewModel.OnAsuntoChange | app/src/main/java/ucne/edu/fintracker/presentation/ajustes/SoporteViewModel.kt:20-22 | only the subject changes |
| Soporte.SoporteViewModel.OnCorreoElectronicoChange | app/src/main/java/ucne/edu/fintracker/presentation/ajustes/SoporteViewModel.kt:24-26 | only the address changes |
| Soporte.SoporteViewModel.OnMensajeChange | app/src/main/java/ucne/edu/fintracker/presentation/ajustes/SoporteViewModel.kt:28-30 | only the message changes |
| Soporte.SoporteViewModel.EnviarMensaje | app/src/main/java/ucne/edu/fintracker/presentation/ajustes/SoporteViewModel.kt:32-83 | a failing check sets the error flag and its message and starts nothing; otherwise the send starts with loading on and the error cleared |
| Soporte.SoporteViewModel.TrasPrimeraPausa | app/src/main/java/ucne/edu/fintracker/presentation/ajustes/SoporteViewModel.kt:85-97 | after the first pause loading ends, the sent notice shows and the three fields are cleared |
| Soporte.SoporteViewModel.TrasSegundaPausa | app/src/main/java/ucne/edu/fintracker/presentation/ajustes/SoporteViewModel.kt:99-100 | after the second pause the notice goes away and the send is over |
| Soporte.SoporteViewModel.OnFalla | app/src/main/java/ucne/edu/fintracker/presentation/ajustes/SoporteViewModel.kt:102-111 | an exception during the send ends loading with the fixed failure message |
| Soporte.SoporteViewModel.LimpiarError | app/src/main/java/ucne/edu/fintracker/presentation/ajustes/SoporteViewModel.kt:115-122 | only the error flag and its message are cleared |
| Soporte.SoporteViewModel.CargarDatosUsuario | app/src/main/java/ucne/edu/fintracker/presentation/ajustes/SoporteViewModel.kt:128-130 | the address is prefilled with the user's email |
| Soporte.EnvioCompleto | app/src/main/java/ucne/edu/fintracker/presentation/ajustes/SoporteViewModel.kt:75-100 | a valid send carried to its end leaves an empty form, no loading, no error and no notice |
| Notificaciones.Con | app/src/main/java/ucne/edu/fintracker/presentation/ajustes/NotificacionesScreen.kt:442-463 | the toggle named by the preference type takes the new value and every other toggle keeps its value |
| Notificaciones.Extensional | app/src/main/java/ucne/edu/fintracker/presentation/ajustes/NotificacionesScreen.kt:319-321 | two snapshots that agree on all five toggles are equal |
| Notificaciones.ConLaws | app/src/main/java/ucne/edu/fintracker/presentation/ajustes/NotificacionesScreen.kt:442-463 | setting a toggle to its current value changes nothing, and setting it twice keeps the last value |
| Notificaciones.NotificationStates.constructor | app/src/main/java/ucne/edu/fintracker/presentation/ajustes/NotificacionesScreen.kt:337-345 | all five toggles start off and nothing is written |
| Notificaciones.NotificationStates.OnPreferenciaCargada | app/src/main/java/ucne/edu/fintracker/presentation/ajustes/NotificacionesScreen.kt:358-364 | a value collected from a stored preference sets that toggle only and writes nothing |
| Notificaciones.NotificationStates.UpdateNotificationPreference | app/src/main/java/ucne/edu/fintracker/presentation/ajustes/NotificacionesScreen.kt:435-464 | the toggle of that type takes the value and exactly that preference is written |
| Notificaciones.AccionProgramacion | app/src/main/java/ucne/edu/fintracker/presentation/ajustes/NotificacionesScreen.kt:368-380 | periodic notifications are scheduled iff tips or savings suggestions are on, and cancelled otherwise |
| Notificaciones.ProgramacionIgnoresOthers | app/src/main/java/ucne/edu/fintracker/presentation/ajustes/NotificacionesScreen.kt:373-378 | the other three toggles never change what is scheduled |
| Notificaciones.Habilitado | app/src/main/java/ucne/edu/fintracker/presentation/ajustes/NotificacionesScreen.kt:238-268 | the tip, transaction and goal buttons follow their toggles; the scheduled-work button follows tips or savings suggestions |
| Notificaciones.ScheduledButtonMatchesScheduling | app/src/main/java/ucne/edu/fintracker/presentation/ajustes/NotificacionesScreen.kt:266 | the scheduled-work button is enabled iff periodic notifications are scheduled |
| Notificaciones.InitiallyNothingEnabled | app/src/main/java/ucne/edu/fintracker/presentation/ajustes/NotificacionesScreen.kt:337-345 | a freshly remembered screen enables no test button and cancels the periodic work |
| Notificaciones.Etiqueta | app/src/main/java/ucne/edu/fintracker/presentation/ajustes/NotificacionesScreen.kt:292 | the label is the text, followed by " (Desactivado)" exactly when the button is disabled |
| Notificaciones.Opciones | app/src/main/java/ucne/edu/fintracker/presentation/ajustes/NotificacionesScreen.kt:388-396 | single-top, state restored and popped to the start exactly for routes starting with "metaahorros" |
| Notificaciones.OnlyMetasIsSingleTop | app/src/main/java/ucne/edu/fintracker/presentation/ajustes/NotificacionesScreen.kt:382-396 | of the three bottom-bar routes only the goals route gets those options |
| Contrasena.MensajeCodigo | app/src/main/java/ucne/edu/fintracker/presentation/panelUsuario/CambiarContrasenaViewModel.kt:52-56 | 400 is "Contraseña actual incorrecta", 404 is "Usuario no encontrado", any other code the generic message |
| Contrasena.CambiarContrasenaViewModel.constructor | app/src/main/java/ucne/edu/fintracker/presentation/panelUsuario/CambiarContrasenaViewModel.kt:20 | the default state and no request |
| Contrasena.CambiarContrasenaViewModel.CambiarContrasena | app/src/main/java/ucne/edu/fintracker/presentation/panelUsuario/CambiarContrasenaViewModel.kt:23-37 | loading on and the error cleared, then the request with the id and both passwords |
| Contrasena.CambiarContrasenaViewModel.OnRespuesta | app/src/main/java/ucne/edu/fintracker/presentation/panelUsuario/CambiarContrasenaViewModel.kt:42-66 | a successful answer sets the success flag and message; any other answer the message for its code; an exception a connection error with its message; loading always ends |
| Contrasena.CambiarContrasenaViewModel.LimpiarMensajes | app/src/main/java/ucne/edu/fintracker/presentation/panelUsuario/CambiarContrasenaViewModel.kt:70-77 | every flag and message but loading is reset |
| Contrasena.FormValidBounds | app/src/main/java/ucne/edu/fintracker/presentation/panelUsuario/CambiarContrasenaScreen.kt:44-46 | a valid form's new password (at least 8 UTF-16 units) and its confirmation have at least four code points, and the current password is not empty |
| Contrasena.NoCharacterClassCheck | app/src/main/java/ucne/edu/fintracker/presentation/panelUsuario/CambiarContrasenaScreen.kt:44-46 | eight letters, confirmed, with a current password, pass with no digit or symbol |
| Contrasena.CambiarContrasenaForm.constructor | app/src/main/java/ucne/edu/fintracker/presentation/panelUsuario/CambiarContrasenaScreen.kt:35-37 | the three password fields start empty |
| Contrasena.CambiarContrasenaForm.OnContrasenaActualChange | app/src/main/java/ucne/edu/fintracker/presentation/panelUsuario/CambiarContrasenaScreen.kt:99 | the current password becomes the typed text |
| Contrasena.CambiarContrasenaForm.OnNuevaContrasenaChange | app/src/main/java/ucne/edu/fintracker/presentation/panelUsuario/CambiarContrasenaScreen.kt:132 | the new password becomes the typed text |
| Contrasena.CambiarContrasenaForm.OnConfirmarContrasenaChange | app/src/main/java/ucne/edu/fintracker/presentation/panelUsuario/CambiarContrasenaScreen.kt:165 | the confirmation becomes the typed text |
| Contrasena.CambiarContrasenaForm.GuardarCambios | app/src/main/java/ucne/edu/fintracker/presentation/panelUsuario/CambiarContrasenaScreen.kt:208-221 | a click sends iff the form is valid and nothing is loading, and then sends the id and both passwords; otherwise nothing changes |
| Contrasena.EfectoExito | app/src/main/java/ucne/edu/fintracker/presentation/panelUsuario/CambiarContrasenaScreen.kt:49-54 | the screen goes back iff the change succeeded, clearing the messages, after which no success is pending |
| Foto.MensajeCarga | app/src/main/java/ucne/edu/fintracker/presentation/panelUsuario/CambiarFotoViewModel.kt:52-57 | 404, 401 and 500 have their own messages; any other code the generic load message |
| Foto.MensajeGuardado | app/src/main/java/ucne/edu/fintracker/presentation/panelUsuario/CambiarFotoViewModel.kt:153-159 | 400, 413, 401 and 500 have their own messages; any other code the generic save message |
| Foto.GuardaGuardado | app/src/main/java/ucne/edu/fintracker/presentation/panelUsuario/CambiarFotoViewModel.kt:101-118 | no error iff there is a user id and a chosen photo; a missing id is reported first, then a missing photo |
| Foto.CambiarFotoViewModel.constructor | app/src/main/java/ucne/edu/fintracker/presentation/panelUsuario/CambiarFotoViewModel.kt:21 | the default state, no load and no upload |
| Foto.CambiarFotoViewModel.CargarDatosUsuario | app/src/main/java/ucne/edu/fintracker/presentation/panelUsuario/CambiarFotoViewModel.kt:24-33 | loading on and the error cleared, then that user is requested |
| Foto.CambiarFotoViewModel.OnUsuarioCargado | app/src/main/java/ucne/edu/fintracker/presentation/panelUsuario/CambiarFotoViewModel.kt:33-66 | a loaded user fills the id, names and photo url and ends loading without error; an HTTP error sets the message for its code; any other exception a connection error with its message |
| Foto.CambiarFotoViewModel.SeleccionarFotoDesdeGaleria | app/src/main/java/ucne/edu/fintracker/presentation/panelUsuario/CambiarFotoViewModel.kt:70-77 | the uri, possibly null, is taken and the options and success flag are cleared |
| Foto.CambiarFotoViewModel.SeleccionarFotoDesdeCamara | app/src/main/java/ucne/edu/fintracker/presentation/panelUsuario/CambiarFotoViewModel.kt:79-86 | the same transition as the gallery |
| Foto.CambiarFotoViewModel.MostrarOpcionesFoto | app/src/main/java/ucne/edu/fintracker/presentation/panelUsuario/CambiarFotoViewModel.kt:88-92 | only the options are shown |
| Foto.CambiarFotoViewModel.OcultarOpcionesFoto | app/src/main/java/ucne/edu/fintracker/presentation/panelUsuario/CambiarFotoViewModel.kt:94-98 | only the options are hidden |
| Foto.CambiarFotoViewModel.GuardarFotoPerfil | app/src/main/java/ucne/edu/fintracker/presentation/panelUsuario/CambiarFotoViewModel.kt:100-126 | a failing guard sets its error and starts nothing; otherwise the upload starts with the error cleared and captures the chosen uri |
| Foto.CambiarFotoViewModel.OnSubida | app/src/main/java/ucne/edu/fintracker/presentation/panelUsuario/CambiarFotoViewModel.kt:135-168 | the simulated success publishes the uri captured at launch as the photo url; an HTTP error sets the message for its code; any other exception a connection error; the upload always ends |
| Foto.CambiarFotoViewModel.LimpiarError | app/src/main/java/ucne/edu/fintracker/presentation/panelUsuario/CambiarFotoViewModel.kt:172-177 | only the error flag and message are cleared |
| Foto.CambiarFotoViewModel.LimpiarEstadoExito | app/src/main/java/ucne/edu/fintracker/presentation/panelUsuario/CambiarFotoViewModel.kt:179-183 | only the success flag is cleared |
| Foto.LoadThenSelectCanSave | app/src/main/java/ucne/edu/fintracker/presentation/panelUsuario/CambiarFotoViewModel.kt:37-45 | after a load and a photo choice the save guard passes |
| Divisas.DivisaOPorDefecto | app/src/main/java/ucne/edu/fintracker/presentation/panelUsuario/DivisasViewModel.kt:31 | an empty currency becomes "DOP"; any other is kept; the result is never empty |
| Divisas.OfrecidasDistintas | app/src/main/java/ucne/edu/fintracker/presentation/panelUsuario/DivisasUiState.kt:4-15 | the default currency is the first one offered, and the ten codes offered are distinct |
| Divisas.DivisasViewModel.constructor | app/src/main/java/ucne/edu/fintracker/presentation/panelUsuario/DivisasViewModel.kt:19 | the default state, nothing loaded or updated |
| Divisas.DivisasViewModel.Inicializar | app/src/main/java/ucne/edu/fintracker/presentation/panelUsuario/DivisasViewModel.kt:22-27 | starts loading the user's current currency |
| Divisas.DivisasViewModel.OnDivisaActual | app/src/main/java/ucne/edu/fintracker/presentation/panelUsuario/DivisasViewModel.kt:28-37 | the loaded user's currency, or "DOP" when empty, becomes the selection; an exception reports the load error with its message |
| Divisas.DivisasViewModel.SeleccionarDivisa | app/src/main/java/ucne/edu/fintracker/presentation/panelUsuario/DivisasViewModel.kt:41-45 | only the selection changes |
| Divisas.DivisasViewModel.GuardarDivisa | app/src/main/java/ucne/edu/fintracker/presentation/panelUsuario/DivisasViewModel.kt:47-90 | a fetched user is sent back with the selected currency, and success is reported even when that update throws; a failed fetch reports the save error and sends nothing |
| UsuarioRepositorio.GetHttpErrorMessage | app/src/main/java/ucne/edu/fintracker/repository/UsuarioRepository.kt:98-105 | 404, 401 and 500 have fixed texts; every other code the caller's default |
| UsuarioRepositorio.ErrorConexion | app/src/main/java/ucne/edu/fintracker/repository/UsuarioRepository.kt:19 | a non-HTTP exception becomes the connection prefix followed by its message, "null" when it has none |
| UsuarioRepositorio.Nombre | app/src/main/java/ucne/edu/fintracker/repository/UsuarioRepository.kt:108 | a file's name holds no '/' and is the whole path when the path has none |
| UsuarioRepositorio.Extension | app/src/main/java/ucne/edu/fintracker/repository/UsuarioRepository.kt:114 | a file's extension holds neither '.' nor '/' |
| UsuarioRepositorio.ValidateImageFile | app/src/main/java/ucne/edu/fintracker/repository/UsuarioRepository.kt:107-124 | no error iff the file exists, its lower-cased extension is allowed and it is at most 5 MiB; otherwise the first failing check's text, in that order |
| UsuarioRepositorio.FiveMebibytesPasses | app/src/main/java/ucne/edu/fintracker/repository/UsuarioRepository.kt:20-22 | a file of exactly 5 MiB with an upper-case extension passes |
| UsuarioRepositorio.OneByteMoreIsTooLarge | app/src/main/java/ucne/edu/fintracker/repository/UsuarioRepository.kt:119-121 | one byte over 5 MiB is refused for its size |
| UsuarioRepositorio.DotInDirectoryIsNoExtension | app/src/main/java/ucne/edu/fintracker/repository/UsuarioRepository.kt:114-117 | a '.' in a directory name gives the file no extension, so it is refused for its format |
| UsuarioRepositorio.PrepareUserWithNewPhoto | app/src/main/java/ucne/edu/fintracker/repository/UsuarioRepository.kt:126-129 | the fetched user with the photo set to the path and every other field kept |
| UsuarioRepositorio.UpdateUserPhoto | app/src/main/java/ucne/edu/fintracker/repository/UsuarioRepository.kt:131-148 | the update's result when it succeeds; on failure the re-fetched user if its photo is the path, else the update's own exception; a successful result is the update's or carries the path |
| UsuarioRepositorio.Emitir | app/src/main/java/ucne/edu/fintracker/repository/UsuarioRepository.kt:27-35 | a value is emitted as Success, an HTTP error as the code's text, any other exception as a connection error |
| UsuarioRepositorio.GetUsuarioFlow | app/src/main/java/ucne/edu/fintracker/repository/UsuarioRepository.kt:25-37 | Loading then one outcome, after one fetch of that user; an HTTP error maps with the default "Error al obtener el usuario" |
| UsuarioRepositorio.MensajeActualizar | app/src/main/java/ucne/edu/fintracker/repository/UsuarioRepository.kt:46-49 | 400 is "Datos de usuario no válidos"; any other code the shared mapping with the update default |
| UsuarioRepositorio.ActualizarUsuarioFlow | app/src/main/java/ucne/edu/fintracker/repository/UsuarioRepository.kt:39-55 | Loading then one outcome, after one update with the given user |
| UsuarioRepositorio.EliminarUsuarioFlow | app/src/main/java/ucne/edu/fintracker/repository/UsuarioRepository.kt:84-96 | Loading then one outcome, after one delete; an HTTP error maps with the delete default |
| UsuarioRepositorio.MensajeFoto | app/src/main/java/ucne/edu/fintracker/repository/UsuarioRepository.kt:73-76 | 400 is "Datos no válidos"; any other code the shared mapping with the status text appended to the photo default |
| UsuarioRepositorio.FotoTrasBuscar | app/src/main/java/ucne/edu/fintracker/repository/UsuarioRepository.kt:68-70 | after the fetch, one update with only the photo replaced; a failed update adds one verifying fetch; a success carries the update's user or one whose photo is the path |
| UsuarioRepositorio.ActualizarFotoPerfilFlow | app/src/main/java/ucne/edu/fintracker/repository/UsuarioRepository.kt:57-82 | a file that fails validation emits its error before any call; a failed fetch emits the photo mapping or a connection error; a fetched user continues with the update |
| UsuarioRepositorioLocal.MensajeGet | app/src/main/java/ucne/edu/fintracker/data/local/repository/UsuarioRepository.kt:22-30 | 404, 401 and 500 have fixed texts; any other code "Error al obtener el usuario" |
| UsuarioRepositorioLocal.MensajeActualizar | app/src/main/java/ucne/edu/fintracker/data/local/repository/UsuarioRepository.kt:43-52 | 400, 404, 401 and 500 have fixed texts; any other code "Error al actualizar el usuario" |
| UsuarioRepositorioLocal.MensajeFoto | app/src/main/java/ucne/edu/fintracker/data/local/repository/UsuarioRepository.kt:84-93 | 400, 401, 404 and 500 have fixed texts; any other code "Error al guardar la foto", without the status text |
| UsuarioRepositorioLocal.MensajeEliminar | app/src/main/java/ucne/edu/fintracker/data/local/repository/UsuarioRepository.kt:106-114 | 404, 401 and 500 have fixed texts; any other code "Error al eliminar el usuario" |
| UsuarioRepositorioLocal.AgreesWithRemote | app/src/main/java/ucne/edu/fintracker/data/local/repository/UsuarioRepository.kt:22-114 | the local get, update and delete texts equal the remote copy's for every code; the photo texts only on the four fixed codes |
| UsuarioRepositorioLocal.MensajeFotoHttp | app/src/main/java/ucne/edu/fintracker/data/local/repository/UsuarioRepository.kt:84-93 | the photo mapping ignores the status text |
| UsuarioRepositorioLocal.GetUsuarioFlow | app/src/main/java/ucne/edu/fintracker/data/local/repository/UsuarioRepository.kt:16-35 | Loading then one outcome, after one fetch of that user |
| UsuarioRepositorioLocal.ActualizarUsuarioFlow | app/src/main/java/ucne/edu/fintracker/data/local/repository/UsuarioRepository.kt:37-57 | Loading then one outcome, after one update with the given user |
| UsuarioRepositorioLocal.EliminarUsuarioFlow | app/src/main/java/ucne/edu/fintracker/data/local/repository/UsuarioRepository.kt:100-119 | Loading then one outcome, after one delete |
| UsuarioRepositorioLocal.ActualizarFotoPerfilFlow | app/src/main/java/ucne/edu/fintracker/data/local/repository/UsuarioRepository.kt:59-98 | the user is fetched first, so a failed fetch wins; then the file checks in order; then one update with the photo replaced and no fallback |
| UsuarioRepositorioLocal.CheckOrderDiffers | app/src/main/java/ucne/edu/fintracker/data/local/repository/UsuarioRepository.kt:63-68 | with a missing file and a failed fetch the local copy reports the connection error and the remote copy the missing file |
| Saldo.Contribucion | app/src/main/java/ucne/edu/fintracker/presentation/utils/SaldoCalculatorUtil.kt:64-69 | an income (type compared lower-cased) adds its amount, an expense subtracts it, any other type adds nothing |
| Saldo.SaldoIsIngresosMinusGastos | app/src/main/java/ucne/edu/fintracker/presentation/utils/SaldoCalculatorUtil.kt:22-38 | the balance is the total of the incomes minus the total of the expenses |
| Saldo.SaldoConcat | app/src/main/java/ucne/edu/fintracker/presentation/utils/SaldoCalculatorUtil.kt:23-38 | the balance of two lists put together is the sum of their balances |
| Saldo.TipoIgnoresCase | app/src/main/java/ucne/edu/fintracker/presentation/utils/SaldoCalculatorUtil.kt:24-25 | "INGRESO" counts as an income |
| Saldo.ActualizarSaldoUsuario | app/src/main/java/ucne/edu/fintracker/presentation/utils/SaldoCalculatorUtil.kt:14-59 | a user is sent iff both fetches succeed, and it is the fetched user with only the balance replaced by the computed one; a result iff all three calls succeed, and it is the saved user |
| Saldo.CalcularSaldoLocal | app/src/main/java/ucne/edu/fintracker/presentation/utils/SaldoCalculatorUtil.kt:61-75 | the computed balance, or 0.0 when fetching the transactions throws |
| Saldo.BothAgree | app/src/main/java/ucne/edu/fintracker/presentation/utils/SaldoCalculatorUtil.kt:14-75 | on the same transactions the balance the update sends is the local balance |
| DateUtil.Increment32 | app/src/main/java/ucne/edu/fintracker/presentation/remote/DateUtil.kt:9 | Kotlin's Int increment: one more, wrapping from the largest Int to the smallest |
| DateUtil.IdCounter.constructor | app/src/main/java/ucne/edu/fintracker/presentation/remote/DateUtil.kt:7 | the counter starts at 1000 |
| DateUtil.IdCounter.GenerateUniqueId | app/src/main/java/ucne/edu/fintracker/presentation/remote/DateUtil.kt:8-11 | the counter is incremented and its new value returned |
| DateUtil.CounterAfter | app/src/main/java/ucne/edu/fintracker/presentation/remote/DateUtil.kt:8-11 | the counter after k calls is still an Int |
| DateUtil.IdsIncrease | app/src/main/java/ucne/edu/fintracker/presentation/remote/DateUtil.kt:7-11 | until it would pass the largest Int, the k-th id is 1000 + k |
| DateUtil.CounterWraps | app/src/main/java/ucne/edu/fintracker/presentation/remote/DateUtil.kt:9 | the id after the largest Int is the smallest |
| DateUtil.DateOf | app/src/main/java/ucne/edu/fintracker/presentation/remote/DateUtil.kt:23 | a date exactly when the year is in range and the day exists in its month; otherwise the exception |
| DateUtil.ParseFecha | app/src/main/java/ucne/edu/fintracker/presentation/remote/DateUtil.kt:13-29 | "Hoy" is today, "Ayer" the day before, three '/'-pieces are day/month/year with defaults 1, 1 and 2025 for non-numbers, anything else today |
| DateUtil.HoyHasOnePiece | app/src/main/java/ucne/edu/fintracker/presentation/remote/DateUtil.kt:18-19 | "Hoy" has a single piece, so it would be today even without its own branch |
| DateUtil.NoSlashInInt | app/src/main/java/ucne/edu/fintracker/presentation/remote/DateUtil.kt:18 | the text of an Int holds no '/' |
| DateUtil.ParseFormat | app/src/main/java/ucne/edu/fintracker/presentation/remote/DateUtil.kt:18-23 | three Ints written day/month/year read back as that date, or the exception when it does not exist |
| DateUtil.ParseFormatRoundTrip | app/src/main/java/ucne/edu/fintracker/presentation/remote/DateUtil.kt:13-29 | every date with an Int year in range is read back from its day/month/year text |
| DateUtil.ImpossibleDayThrows | app/src/main/java/ucne/edu/fintracker/presentation/remote/DateUtil.kt:23 | 31/2/2024 throws |
| DateUtil.DefaultsApply | app/src/main/java/ucne/edu/fintracker/presentation/remote/DateUtil.kt:20-22 | "x/y/z" is 1 January 2025 |
| DateUtilRemoto.ParseFecha | app/src/main/java/ucne/edu/fintracker/remote/DateUtil.kt:15-32 | the same date as the presentation copy, at midnight, and an exception exactly where that one throws |
| Mappers.TransaccionToEntity | app/src/main/java/ucne/edu/fintracker/data/mappers/Mappers.kt:14-23 | an entity from a DTO is never pending, and maps back to that DTO |
| Mappers.TransaccionEntityRoundTrip | app/src/main/java/ucne/edu/fintracker/data/mappers/Mappers.kt:14-33 | an entity mapped to its DTO and back keeps every field but loses a pending sync |
| Mappers.PagoToEntity | app/src/main/java/ucne/edu/fintracker/data/mappers/Mappers.kt:34-44 | pending as asked, and maps back to the DTO |
| Mappers.PagoEntityRoundTrip | app/src/main/java/ucne/edu/fintracker/data/mappers/Mappers.kt:34-54 | an entity mapped to its DTO and back with its own flag is the same entity |
| Mappers.MetaToEntity | app/src/main/java/ucne/edu/fintracker/data/mappers/Mappers.kt:56-68 | pending as asked; mapped back, the DTO has an empty list of contributions and is otherwise the same |
| Mappers.MetaToDto | app/src/main/java/ucne/edu/fintracker/data/mappers/Mappers.kt:70-81 | the list of contributions takes its default, empty |
| Mappers.MetaRoundTripLosesAhorros | app/src/main/java/ucne/edu/fintracker/data/mappers/Mappers.kt:56-81 | a goal survives the round trip iff it has no contributions |
| Mappers.MetaEntityRoundTrip | app/src/main/java/ucne/edu/fintracker/data/mappers/Mappers.kt:56-81 | an entity mapped to its DTO and back with its own flag is the same entity |
| Mappers.LimiteToEntity | app/src/main/java/ucne/edu/fintracker/data/mappers/Mappers.kt:83-90 | pending as asked, no amount spent; mapped back, only the amount spent is lost |
| Mappers.LimiteToDto | app/src/main/java/ucne/edu/fintracker/data/mappers/Mappers.kt:92-98 | the DTO's amount spent takes its default, null |
| Mappers.LimiteRoundTrips | app/src/main/java/ucne/edu/fintracker/data/mappers/Mappers.kt:83-98 | a limit survives the round trip iff it has no amount spent; an entity loses only that |
| Mappers.CategoriaToEntity | app/src/main/java/ucne/edu/fintracker/data/mappers/Mappers.kt:100-110 | pending as asked, and maps back to the DTO |
| Mappers.CategoriaEntityRoundTrip | app/src/main/java/ucne/edu/fintracker/data/mappers/Mappers.kt:100-121 | an entity mapped to its DTO and back with its own flag is the same entity |
| Chat.GastoIsLowercaseGasto | app/src/main/java/ucne/edu/fintracker/presentation/asesorIA/ChatIAViewModel.kt:121 | the case-insensitive match with "Gasto" is the balance calculator's lower-cased match with "gasto" |
| Chat.IngresoIsLowercaseIngreso | app/src/main/java/ucne/edu/fintracker/presentation/asesorIA/ChatIAViewModel.kt:122 | the same for "Ingreso" |
| Chat.BalanceNetoIsSaldo | app/src/main/java/ucne/edu/fintracker/presentation/asesorIA/ChatIAViewModel.kt:121-126 | the net balance the advisor is told is the balance the balance calculator computes from the same transactions |
| Chat.Ratio | app/src/main/java/ucne/edu/fintracker/presentation/asesorIA/ChatIAViewModel.kt:197 | a ratio exists iff total expenses are positive, and it is the net balance per hundred of expenses |
| Chat.TotalIngresosNonNegative | app/src/main/java/ucne/edu/fintracker/presentation/asesorIA/ChatIAViewModel.kt:125 | with no negative amounts, total income is not negative |
| Chat.RatioAtLeastMinusHundred | app/src/main/java/ucne/edu/fintracker/presentation/asesorIA/ChatIAViewModel.kt:197 | with no negative amounts the ratio is never below -100 |
| Chat.Promedio | app/src/main/java/ucne/edu/fintracker/presentation/asesorIA/ChatIAViewModel.kt:187-195 | an average exists iff the list is not empty, and times the count it gives the total |
| Chat.RecientesAreTheLatest | app/src/main/java/ucne/edu/fintracker/presentation/asesorIA/ChatIAViewModel.kt:127-129 | the recent transactions are the five latest, or all when fewer, in descending date order, drawn from the transactions, and none left out is later than one listed |
| Chat.MetasPartition | app/src/main/java/ucne/edu/fintracker/presentation/asesorIA/ChatIAViewModel.kt:131-141 | active and completed goals split the goals: together they are the goals and their counts add up |
| Chat.ToIntTruncado | app/src/main/java/ucne/edu/fintracker/presentation/asesorIA/ChatIAViewModel.kt:175 | Kotlin's Double.toInt: truncation toward zero, clamped to the Int range |
| Chat.Progreso | app/src/main/java/ucne/edu/fintracker/presentation/asesorIA/ChatIAViewModel.kt:175 | the progress is 0 unless the target is positive |
| Chat.ProgresoOfActiva | app/src/main/java/ucne/edu/fintracker/presentation/asesorIA/ChatIAViewModel.kt:172-175 | an active goal with nothing negative saved shows a progress between 0 and 99 percent |
| Chat.MetasEnCurso | app/src/main/java/ucne/edu/fintracker/presentation/asesorIA/ChatIAViewModel.kt:172-177 | one entry per goal, carrying the goal, its saved amount and its progress |
| Chat.DivisaMostrada | app/src/main/java/ucne/edu/fintracker/presentation/asesorIA/ChatIAViewModel.kt:151 | an empty currency shows as "RD$", any other as itself; never empty |
| Chat.SignoEscrito | app/src/main/java/ucne/edu/fintracker/presentation/asesorIA/ChatIAViewModel.kt:163 | as written: "-" iff the type is exactly "Gasto" |
| Chat.SignoEscritoDisagreesWithTotals | app/src/main/java/ucne/edu/fintracker/presentation/asesorIA/ChatIAViewModel.kt:121-163 | a transaction of type "gasto" counts as an expense yet is printed with "+" |
| Chat.Signo | app/src/main/java/ucne/edu/fintracker/presentation/asesorIA/ChatIAViewModel.kt:121-163 | corrected: "-" iff the transaction is counted as an expense |
| Chat.ActivasMostradas | app/src/main/java/ucne/edu/fintracker/presentation/asesorIA/ChatIAViewModel.kt:172 | at most four entries, each an active goal of the list with its progress |
| Chat.CompletadasMostradas | app/src/main/java/ucne/edu/fintracker/presentation/asesorIA/ChatIAViewModel.kt:181 | at most three goals, each a completed goal of the list |
| Chat.Signos | app/src/main/java/ucne/edu/fintracker/presentation/asesorIA/ChatIAViewModel.kt:162-163 | one sign per recent transaction, as line 163 prints it: "-" only for a type spelt exactly "Gasto" |
| Chat.SignosAgreeIffExactSpelling | app/src/main/java/ucne/edu/fintracker/presentation/asesorIA/ChatIAViewModel.kt:121-163 | the printed signs agree with the signs the totals call for iff every listed expense is spelt exactly "Gasto" |
| Chat.ConstruirResumen | app/src/main/java/ucne/edu/fintracker/presentation/asesorIA/ChatIAViewModel.kt:109-212 | the prompt's figures: the net balance is the calculator's balance and income minus expenses, goal counts add up to the goals, expense and income counts fit in the transactions, the recents are the five latest transactions (Chat.RecientesAreTheLatest) and each is printed with the as-written sign, a ratio iff expenses are positive, a non-empty currency |
| Chat.GastosIngresosDisjoint | app/src/main/java/ucne/edu/fintracker/presentation/asesorIA/ChatIAViewModel.kt:121-122 | no transaction is both an expense and an income, so the two counts never exceed the total |
| Chat.EstadoTrasInicio | app/src/main/java/ucne/edu/fintracker/presentation/asesorIA/ChatIAViewModel.kt:93-104 | a reply with text is a success with that text; a null text is "Error en inicialización"; an exception the load error with its message |
| Chat.EstadoTrasPregunta | app/src/main/java/ucne/edu/fintracker/presentation/asesorIA/ChatIAViewModel.kt:222-238 | a reply with text is a success; a null text "Respuesta vacía"; an exception its message or "Error desconocido" |
| Chat.ChatIAViewModel.constructor | app/src/main/java/ucne/edu/fintracker/presentation/asesorIA/ChatIAViewModel.kt:33-34 | the state is Initial, the chat is not initialised and nothing was sent |
| Chat.ChatIAViewModel.InicializarConUsuario | app/src/main/java/ucne/edu/fintracker/presentation/asesorIA/ChatIAViewModel.kt:81-85 | an initialised chat does nothing; otherwise the state is Loading and one load is launched |
| Chat.ChatIAViewModel.OnInicializado | app/src/main/java/ucne/edu/fintracker/presentation/asesorIA/ChatIAViewModel.kt:86-104 | failed reads send nothing and show the load error; otherwise the profile is sent and only a reply with text marks the chat initialised |
| Chat.ChatIAViewModel.SendPrompt | app/src/main/java/ucne/edu/fintracker/presentation/asesorIA/ChatIAViewModel.kt:214-220 | the state is Loading and one reply is awaited |
| Chat.ChatIAViewModel.OnRespuesta | app/src/main/java/ucne/edu/fintracker/presentation/asesorIA/ChatIAViewModel.kt:221-238 | the question is sent and the reply decides the state |
| Chat.ChatIAViewModel.ClearChat | app/src/main/java/ucne/edu/fintracker/presentation/asesorIA/ChatIAViewModel.kt:242-245 | a fresh conversation, and the next initialisation loads again |
| Chat.ReinicializarTrasLimpiar | app/src/main/java/ucne/edu/fintracker/presentation/asesorIA/ChatIAViewModel.kt:81-85 | after clearing, initialising loads the user's data again |
| Chat.SinEscribiendo | app/src/main/java/ucne/edu/fintracker/presentation/asesorIA/ChatIaScreen.kt:48 | the kept messages are the list's non-placeholders, and every non-placeholder is kept |
| Chat.SinEscribiendoConcat | app/src/main/java/ucne/edu/fintracker/presentation/asesorIA/ChatIaScreen.kt:48 | dropping placeholders works piecewise, so order is kept |
| Chat.SinEscribiendoKeepsPlainLists | app/src/main/java/ucne/edu/fintracker/presentation/asesorIA/ChatIaScreen.kt:48 | a list without placeholders is left as it is |
| Chat.TrasEstado | app/src/main/java/ucne/edu/fintracker/presentation/asesorIA/ChatIaScreen.kt:41-58 | Loading appends one placeholder; a success or an error drops every placeholder and appends the AI's text or "Error: " and the message; Initial changes nothing |
| Chat.ReplyReplacesPlaceholder | app/src/main/java/ucne/edu/fintracker/presentation/asesorIA/ChatIaScreen.kt:41-55 | a reply after its Loading state takes the place of that placeholder |
| Chat.QuestionAndReply | app/src/main/java/ucne/edu/fintracker/presentation/asesorIA/ChatIaScreen.kt:41-55 | a question answered in a conversation without placeholders appends exactly the question and the reply |
| Chat.ChatScreenState.constructor | app/src/main/java/ucne/edu/fintracker/presentation/asesorIA/ChatIaScreen.kt:35-41 | empty prompt and list, and the effect has run once for the current state |
| Chat.ChatScreenState.OnUiState | app/src/main/java/ucne/edu/fintracker/presentation/asesorIA/ChatIaScreen.kt:41 | a new state value reruns the effect; an equal one does not |
| Chat.ChatScreenState.OnPromptChange | app/src/main/java/ucne/edu/fintracker/presentation/asesorIA/ChatIaScreen.kt:146 | the prompt becomes the typed text |
| Chat.ChatScreenState.OnEnviar | app/src/main/java/ucne/edu/fintracker/presentation/asesorIA/ChatIaScreen.kt:168-180 | a non-blank prompt is appended as the user's message, sent and cleared; a blank one changes nothing |
| Chat.ChatScreenState.AlMostrar | app/src/main/java/ucne/edu/fintracker/presentation/asesorIA/ChatIaScreen.kt:61-63 | the chat is initialised for the user shown, and an initialised one is left alone |

## Left out

- Compose layout, drawing and animation: the pie chart, the bar chart, colours, and the screens that only lay data out.
- The navigation graph, except the session check (`Session.DataLogin.VerificarSesion`).
- Network and AI clients. The FinTracker API, both data sources, the Retrofit and OkHttp setup, and the Gemini model and chat are outside the model. Their outcomes enter as `Resource`, `Attempt` or `Llamada` parameters.
- `getChatHistory` and the chat service's own memory of earlier turns. `Chat.ChatIAViewModel.enviados` records only what was sent.
- The `bitmap` argument of `sendPrompt`. It is never passed by the screen.
- The transaction, payment, limit, goal and category repositories. They only wrap data-source calls and Room DAOs in flows, with no logic beyond the emission order.
- `PanelUsuarioViewModel`. It repeats the user repository's error mapping.
- `LoginRepository.register` and `enviarResetPassword`. They return the data source's result unchanged.
- Room, DataStore, dependency injection, the notification manager, scheduler, worker and receiver, and image file copying.
  - DataStore and Room state is modelled as class fields.
  - Scheduling is modelled as the decision to schedule or cancel.
- Concurrency. `collectLatest`, the coroutine scopes and `delay` are modelled as separate sequential steps. No interleaving of two coroutines of the same view-model is modelled.
- Logging.
- IEEE 754 arithmetic. Amounts are `real`, so rounding of sums and products is not modelled.
  - A division whose divisor may be zero yields an explicit infinity or NaN.
  - `Double.toInt` truncates toward zero and clamps to the `Int` range (`Chat.ToIntTruncado`, `MetaDetalle.PorcentajeEntero`).
- Number and currency formatting. This covers `"%.2f"` when an amount field loses focus (`GastoScreen.kt:172-180`, `PagoScreen.kt:217-225`), `"%.1f"` for the savings ratio, and the locale currency formatter.
  - The advisor's prompt is modelled as the figures it reports, not as its text.
- Text conversion.
  - `toDoubleOrNull` accepts only an optional sign, digits, an optional '.', and then digits, with at least one digit overall.
  - Exponents, `NaN`, `Infinity`, hexadecimal forms, a trailing type suffix such as "5d" or "5f", and surrounding whitespace are not modelled.
  - `toIntOrNull` is an optional sign and decimal digits within the `Int` range.
- Case folding. `lowercase` and `equals(ignoreCase = true)` fold ASCII letters only; other Unicode case pairs are not modelled.
- `android.util.Patterns.EMAIL_ADDRESS` is a boolean parameter of the support form, because its pattern is platform code.
- Clocks. `now()` is a parameter.
  - `OffsetDateTime` values share one fixed offset.
  - A `LocalDateTime` built at midnight has nanosecond-of-day 0.
  - `java.io.File` is modelled by its path, whether it exists, and its length.
- Ui-state fields. Some state that the screens keep in remembered variables is modelled as fields of the ui state, for example the login tab, the login error, the register surname, the reset-email fields, the category filter and the chosen photo uri.
- Chat.ActivasMostradas: states that the entries are at most four active goals of the list with their progress, not that they are the first four in order.
- Chat.CompletadasMostradas: states that the entries are at most three completed goals of the list, not that they are the first three in order.
- Chat.Progreso: its own contract gives only the zero-target case. The range of an active goal's progress is `Chat.ProgresoOfActiva`.
- UsuarioRepositorio.Extension: states only that the extension holds neither '.' nor '/'. The validation lemmas pin down its value on concrete paths.
- The transaction DTO. The repository has two `TransaccionDto` classes. `presentation/remote/dto/TransaccionDto.kt` has a `LocalDate` date and a nested category, and `remote/dto/TransaccionDto.kt` has an `OffsetDateTime` date and a `usuarioId`. `GastoViewModel.kt` imports the first, but its date filter calls `it.fecha.toLocalDate()`, which only the second supports. `Dto.Transaccion` follows the second.
- PagoForm.EstadoPago.ManejarGuardado: passes the start and end texts on as they are. `OffsetDateTime.parse` at `PagoScreen.kt:404-405` could throw on other text, but the fields only hold picker text (`PagoForm.FechaPickerRoundTrip`) or an edited payment's own `toString()`, so that throw is not modelled.

## Findings

| source | as written | input that shows it | evidently intended | confidence | as-written member | corrected member |
|---|---|---|---|---|---|---|
| app/src/main/java/ucne/edu/fintracker/presentation/asesorIA/ChatIAViewModel.kt:163 | the sign printed before a recent transaction is "-" only when the type equals "Gasto" exactly | a transaction of type "gasto": the totals count it as an expense (line 121 ignores case) but the list prints it with "+" | "-" exactly for the transactions the totals count as expenses, ignoring case | not executed | Chat.SignoEscrito, Chat.SignoEscritoDisagreesWithTotals | Chat.Signo |
