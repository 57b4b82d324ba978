/**
 * The notification settings screen (`NotificacionesScreen`): the five
 * remembered toggles, what a toggle change writes, the rule that schedules
 * or cancels the periodic notifications, which test buttons are enabled,
 * and the navigation options of the bottom bar.
 */
module Notificaciones {
  import opened Text

  datatype PreferenceType =
    TransactionAlerts | SpendingLimitReminders | SavingsGoalUpdates | FinancialTips | SavingsSuggestions

  datatype TestNotificationType = Tip | Transaction | Goal | Scheduled

  /** The values of the five toggles at one moment. */
  datatype Preferencias = Preferencias(
    transactionAlerts: bool,
    spendingLimitReminders: bool,
    savingsGoalUpdates: bool,
    financialTips: bool,
    savingsSuggestions: bool)

  /** The toggle a preference type names. */
  function Valor(p: Preferencias, t: PreferenceType): bool {
    match t
    case TransactionAlerts => p.transactionAlerts
    case SpendingLimitReminders => p.spendingLimitReminders
    case SavingsGoalUpdates => p.savingsGoalUpdates
    case FinancialTips => p.financialTips
    case SavingsSuggestions => p.savingsSuggestions
  }

  /** The toggles with the one `t` names set to `b`. */
  function Con(p: Preferencias, t: PreferenceType, b: bool): (r: Preferencias)
    ensures Valor(r, t) == b
    ensures forall u :: u != t ==> Valor(r, u) == Valor(p, u)
  {
    match t
    case TransactionAlerts => p.(transactionAlerts := b)
    case SpendingLimitReminders => p.(spendingLimitReminders := b)
    case SavingsGoalUpdates => p.(savingsGoalUpdates := b)
    case FinancialTips => p.(financialTips := b)
    case SavingsSuggestions => p.(savingsSuggestions := b)
  }

  /** Two snapshots agreeing on every toggle are the same snapshot. */
  lemma Extensional(p: Preferencias, q: Preferencias)
    requires forall t :: Valor(p, t) == Valor(q, t)
    ensures p == q
  {
    assert Valor(p, TransactionAlerts) == Valor(q, TransactionAlerts);
    assert Valor(p, SpendingLimitReminders) == Valor(q, SpendingLimitReminders);
    assert Valor(p, SavingsGoalUpdates) == Valor(q, SavingsGoalUpdates);
    assert Valor(p, FinancialTips) == Valor(q, FinancialTips);
    assert Valor(p, SavingsSuggestions) == Valor(q, SavingsSuggestions);
  }

  /** Setting a toggle to the value it has changes nothing; setting it twice keeps the last value. */
  lemma ConLaws(p: Preferencias, t: PreferenceType, b: bool, c: bool)
    ensures Con(p, t, Valor(p, t)) == p
    ensures Con(Con(p, t, b), t, c) == Con(p, t, c)
  {
    Extensional(Con(p, t, Valor(p, t)), p);
    Extensional(Con(Con(p, t, b), t, c), Con(p, t, c));
  }

  /** One write to the preferences store, launched by a toggle change. */
  datatype Escritura = Escritura(tipo: PreferenceType, enabled: bool)

  class NotificationStates {
    var transactionAlerts: bool
    var spendingLimitReminders: bool
    var savingsGoalUpdates: bool
    var financialTips: bool
    var savingsSuggestions: bool
    var escrituras: seq<Escritura>

    function Snapshot(): Preferencias
      reads this
    {
      Preferencias(transactionAlerts, spendingLimitReminders, savingsGoalUpdates, financialTips, savingsSuggestions)
    }

    /** `rememberNotificationStates`: every toggle starts off. */
    constructor ()
      ensures forall t :: !Valor(Snapshot(), t)
      ensures escrituras == []
    {
      transactionAlerts := false;
      spendingLimitReminders := false;
      savingsGoalUpdates := false;
      financialTips := false;
      savingsSuggestions := false;
      escrituras := [];
    }

    /** One value collected from a stored preference's flow. */
    method OnPreferenciaCargada(t: PreferenceType, valor: bool)
      modifies this
      ensures Snapshot() == Con(old(Snapshot()), t, valor)
      ensures escrituras == old(escrituras)
    {
      match t
      case TransactionAlerts => transactionAlerts := valor;
      case SpendingLimitReminders => spendingLimitReminders := valor;
      case SavingsGoalUpdates => savingsGoalUpdates := valor;
      case FinancialTips => financialTips := valor;
      case SavingsSuggestions => savingsSuggestions := valor;
    }

    /** `updateNotificationPreference`: the toggle for `t` becomes `enabled` and the same key is written. */
    method UpdateNotificationPreference(t: PreferenceType, enabled: bool)
      modifies this
      ensures Snapshot() == Con(old(Snapshot()), t, enabled)
      ensures escrituras == old(escrituras) + [Escritura(t, enabled)]
    {
      OnPreferenciaCargada(t, enabled);
      escrituras := escrituras + [Escritura(t, enabled)];
    }
  }

  datatype AccionPeriodica = Programar | Cancelar

  /** `HandleNotificationScheduling`: schedule iff tips or savings suggestions are on. */
  function AccionProgramacion(p: Preferencias): (a: AccionPeriodica)
    ensures a == Programar <==> p.financialTips || p.savingsSuggestions
    ensures a == Cancelar <==> !p.financialTips && !p.savingsSuggestions
  {
    if p.financialTips || p.savingsSuggestions then Programar else Cancelar
  }

  /** Toggles other than tips and savings suggestions never change what is scheduled. */
  lemma ProgramacionIgnoresOthers(p: Preferencias, t: PreferenceType, b: bool)
    requires t != FinancialTips && t != SavingsSuggestions
    ensures AccionProgramacion(Con(p, t, b)) == AccionProgramacion(p)
  {
    assert Valor(Con(p, t, b), FinancialTips) == p.financialTips;
    assert Valor(Con(p, t, b), SavingsSuggestions) == p.savingsSuggestions;
  }

  /** `TestingButtons`: which test button is enabled. */
  function Habilitado(p: Preferencias, b: TestNotificationType): (r: bool)
    ensures b == Tip ==> (r <==> p.financialTips)
    ensures b == Transaction ==> (r <==> p.transactionAlerts)
    ensures b == Goal ==> (r <==> p.savingsGoalUpdates)
    ensures b == Scheduled ==> (r <==> p.financialTips || p.savingsSuggestions)
  {
    match b
    case Tip => p.financialTips
    case Transaction => p.transactionAlerts
    case Goal => p.savingsGoalUpdates
    case Scheduled => p.financialTips || p.savingsSuggestions
  }

  /** The scheduled-work test button is enabled exactly when periodic notifications are scheduled. */
  lemma ScheduledButtonMatchesScheduling(p: Preferencias)
    ensures Habilitado(p, Scheduled) <==> AccionProgramacion(p) == Programar
  {
  }

  /** A freshly remembered screen enables no test button and cancels the periodic work. */
  lemma InitiallyNothingEnabled(p: Preferencias)
    requires forall t :: !Valor(p, t)
    ensures forall b :: !Habilitado(p, b)
    ensures AccionProgramacion(p) == Cancelar
  {
    assert !Valor(p, FinancialTips) && !Valor(p, SavingsSuggestions);
    assert !Valor(p, TransactionAlerts) && !Valor(p, SavingsGoalUpdates);
  }

  const SufijoDesactivado: string := " (Desactivado)"

  /** `TestButton`'s label: the text, followed by " (Desactivado)" when the button is disabled. */
  function Etiqueta(texto: string, enabled: bool): (r: string)
    ensures |texto| <= |r| && r[..|texto|] == texto
    ensures enabled <==> |r| == |texto|
    ensures !enabled ==> r[|texto|..] == SufijoDesactivado
  {
    if enabled then texto else texto + SufijoDesactivado
  }

  /** The navigation options `navigateToRoute` applies. */
  datatype OpcionesNavegacion = OpcionesNavegacion(launchSingleTop: bool, restoreState: bool, popUpToInicio: bool)

  const PrefijoMetas: string := "metaahorros"

  predicate StartsWith(s: string, prefix: string) {
    |prefix| <= |s| && s[..|prefix|] == prefix
  }

  /** Only routes starting with "metaahorros" are navigated single-top, restoring and saving state. */
  function Opciones(route: string): (o: OpcionesNavegacion)
    ensures o.launchSingleTop <==> StartsWith(route, PrefijoMetas)
    ensures o.restoreState == o.launchSingleTop && o.popUpToInicio == o.launchSingleTop
  {
    var metas := StartsWith(route, PrefijoMetas);
    OpcionesNavegacion(metas, metas, metas)
  }

  /** `createNavigationItems`: the three bottom-bar routes. */
  function RutasNavegacion(usuarioId: int): (r: seq<string>)
    ensures |r| == 3
  {
    ["gastos", "chatIA/" + IntToString(usuarioId), PrefijoMetas + "/" + IntToString(usuarioId)]
  }

  /** Of the three bottom-bar destinations only the goals one gets the single-top options. */
  lemma OnlyMetasIsSingleTop(usuarioId: int)
    ensures !Opciones(RutasNavegacion(usuarioId)[0]).launchSingleTop
    ensures !Opciones(RutasNavegacion(usuarioId)[1]).launchSingleTop
    ensures Opciones(RutasNavegacion(usuarioId)[2]).launchSingleTop
  {
    var r := RutasNavegacion(usuarioId);
    assert r[1][0] == 'c';
    assert (PrefijoMetas + "/" + IntToString(usuarioId))[..|PrefijoMetas|] == PrefijoMetas;
  }
}
