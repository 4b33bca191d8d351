/**
 * The sales table: which users get row actions, the header and empty-state layout, the
 * per-row commission figures and the status badge colours.
 */
module SalesTable {
  import opened Wrappers
  import opened Types
  import opened Commission
  import opened Access

  /** Row edit/delete buttons appear only for an admin, who may also do everything else. */
  function CanPerformActions(user: Option<User>): (shown: bool)
    ensures shown <==> user.Some? && user.value.role == Admin
    ensures shown ==> UserCan(Add, user) && UserCan(Edit, user) && UserCan(Delete, user)
  {
    user.Some? && user.value.role == Admin
  }

  /**
   * The row actions are shown exactly to admins, who are exactly the users that may both edit
   * and delete; a gerente, who may add, gets no row actions.
   */
  lemma RowActionsMatchPermissions(user: Option<User>)
    ensures user.None? ==> !CanPerformActions(user)
    ensures CanPerformActions(user) <==> UserCan(Edit, user) && UserCan(Delete, user)
    ensures user.Some? && user.value.role == Gerente ==> UserCan(Add, user) && !CanPerformActions(user)
    ensures CanPerformActions(user) ==> UserCan(Add, user)
  {
  }

  const BaseHeaders: seq<string> := ["Cliente", "Corretor", "Construtora", "Empreendimento",
    "Data da Venda", "Valor da Venda", "Comissão Vendedor", "Status Pagamento", "Status Repasse"]

  /** The column headers: nine, plus "Ações" for an admin. */
  function Headers(user: Option<User>): (hs: seq<string>)
    ensures |hs| == if CanPerformActions(user) then 10 else 9
    ensures hs[..9] == BaseHeaders
    ensures CanPerformActions(user) ==> hs[9] == "Ações"
  {
    if CanPerformActions(user) then BaseHeaders + ["Ações"] else BaseHeaders
  }

  /** The figures a row shows for one sale. */
  datatype RowView =
    | SaleRow(sale: Sale, commission: real, remaining: real, actions: bool)
    | Placeholder(colSpan: nat)

  /** The row of one sale: its seller commission and what remains, unclamped. */
  function RowOf(s: Sale, actions: bool): (r: RowView)
    ensures r.SaleRow? && r.sale == s && r.actions == actions
    ensures r.commission == SaleCommission(s)
    ensures r.remaining + s.valorComissaoPaga == r.commission
  {
    var c := SaleCommission(s);
    SaleRow(s, c, Remaining(c, s.valorComissaoPaga), actions)
  }

  /**
   * The table body: one row per sale in the given order, or a single placeholder row that
   * spans every header column when there are no sales.
   */
  function Body(sales: seq<Sale>, user: Option<User>): (rows: seq<RowView>)
    ensures sales == [] ==> rows == [Placeholder(|Headers(user)|)]
    ensures sales != [] ==> |rows| == |sales|
    ensures sales != [] ==> forall i :: 0 <= i < |sales| ==>
      rows[i].SaleRow? && rows[i].sale == sales[i] && rows[i].actions == CanPerformActions(user)
      && rows[i].commission == SaleCommission(sales[i])
  {
    if sales == [] then [Placeholder(|Headers(user)|)]
    else seq(|sales|, i requires 0 <= i < |sales| => RowOf(sales[i], CanPerformActions(user)))
  }

  /** The fallback colour; written in two pieces so that its first character is easy to see. */
  const GrayClass: string := "bg-gray-100 text-gray-800 " + "dark:bg-gray-700 dark:text-gray-300"

  /** The badge colour of each known status text. */
  const StatusClasses: map<string, string> := map[
    "Pago" := "bg-green-100 text-green-800 dark:bg-green-900/50 dark:text-green-300",
    "Pendente" := "bg-yellow-100 text-yellow-800 dark:bg-yellow-900/50 dark:text-yellow-300",
    "Pago Parcialmente" := "bg-orange-100 text-orange-800 dark:bg-orange-900/50 dark:text-orange-300",
    "NFS-e pendenciada" := "bg-yellow-100 text-yellow-800 dark:bg-yellow-900/50 dark:text-yellow-300",
    "Caixinha" := "bg-blue-100 text-blue-800 dark:bg-blue-900/50 dark:text-blue-300",
    "NFS-e aprovada" := "bg-cyan-100 text-cyan-800 dark:bg-cyan-900/50 dark:text-cyan-300",
    "Liberado" := "bg-green-100 text-green-800 dark:bg-green-900/50 dark:text-green-300",
    "Antecipado" := "bg-indigo-100 text-indigo-800 dark:bg-indigo-900/50 dark:text-indigo-300",
    "Flash" := "bg-purple-100 text-purple-800 dark:bg-purple-900/50 dark:text-purple-300",
    "Inadimplente" := "bg-red-100 text-red-800 dark:bg-red-900/50 dark:text-red-300"]

  /**
   * The names every plain JavaScript object answers to through its prototype. The colour
   * table is such an object, so looking one of these up finds an inherited value.
   */
  const ObjectPrototypeNames: set<string> := {
    "constructor", "toString", "valueOf", "hasOwnProperty", "isPrototypeOf",
    "propertyIsEnumerable", "toLocaleString", "__proto__", "__defineGetter__",
    "__defineSetter__", "__lookupGetter__", "__lookupSetter__"}

  /**
   * The text an inherited value turns into inside the class attribute: the prototype object
   * itself for `__proto__`, the source text of a built-in method for the others.
   */
  function InheritedClass(name: string): (c: string)
    ensures c != GrayClass
  {
    if name == "__proto__" then
      assert "[object Object]"[0] == '[' && "bg-gray-100 text-gray-800 "[0] == 'b';
      "[object Object]"
    else
      var c := "function " + name + "() { [native code] }";
      assert c[0] == 'f' && "bg-gray-100 text-gray-800 "[0] == 'b';
      c
  }

  /**
   * `StatusBadge` as written: the colour lookup is a truthiness test on a plain object, so an
   * inherited name gets the inherited value instead of the gray fallback.
   */
  function StatusBadgeAsWritten(status: string): (badge: (string, string))
    ensures status in StatusClasses ==> badge == StatusBadge(status)
    ensures status !in StatusClasses && status !in ObjectPrototypeNames ==> badge == StatusBadge(status)
    ensures status !in StatusClasses && status in ObjectPrototypeNames ==> badge.0 != GrayClass
    ensures badge.1 == status
  {
    if status in StatusClasses then (StatusClasses[status], status)
    else if status in ObjectPrototypeNames then (InheritedClass(status), status)
    else (GrayClass, status)
  }

  /** `StatusBadge`: the colour of a known status, gray for any other text; the text is shown as is. */
  function StatusBadge(status: string): (badge: (string, string))
    ensures status in StatusClasses ==> badge.0 == StatusClasses[status]
    ensures status !in StatusClasses ==> badge.0 == GrayClass
    ensures badge.1 == status
  {
    (if status in StatusClasses then StatusClasses[status] else GrayClass, status)
  }

  /** Every payment and transfer status has its own entry, and none of them is gray. */
  lemma KnownStatusesHaveColours(p: StatusPagamento, t: StatusRepasse)
    ensures PagamentoLabel(p) in StatusClasses && StatusBadge(PagamentoLabel(p)).0 != GrayClass
    ensures RepasseLabel(t) in StatusClasses && StatusBadge(RepasseLabel(t)).0 != GrayClass
    ensures StatusBadgeAsWritten(PagamentoLabel(p)) == StatusBadge(PagamentoLabel(p))
    ensures StatusBadgeAsWritten(RepasseLabel(t)) == StatusBadge(RepasseLabel(t))
  {
    match p
    case Pendente =>
    case PagoParcialmente =>
    case Pago =>
  }

  /**
   * A text that is neither a payment nor a transfer status is gray under the intended lookup;
   * as written it is gray exactly when it is not an inherited name.
   */
  lemma UnknownStatusIsGray(status: string)
    requires ParsePagamento(status).None? && ParseRepasse(status).None?
    ensures StatusBadge(status).0 == GrayClass
    ensures StatusBadgeAsWritten(status).0 == GrayClass <==> status !in ObjectPrototypeNames
  {
  }

  /** "toString" is no status and no colour key, yet as written its badge is not gray. */
  lemma InheritedStatusIsNotGray()
    ensures "toString" !in StatusClasses && "toString" in ObjectPrototypeNames
    ensures StatusBadgeAsWritten("toString").0 != GrayClass
    ensures StatusBadge("toString").0 == GrayClass
  {
  }
}
