/** The record types of the sales dashboard: a sale, a user and the three closed enumerations. */
module Types {
  import opened Wrappers

  /** The invoicing / transfer stage of a sale; chosen freely by the user, never derived. */
  datatype StatusRepasse =
    | NfsePendenciada | NfseAprovada | Liberado | Antecipado | Caixinha | Flash | Inadimplente

  /** How much of the seller commission has been paid; derived from the amounts. */
  datatype StatusPagamento = Pendente | PagoParcialmente | Pago

  datatype UserRole = Admin | Gerente | Corretor | Financeiro

  /** One real-estate sale. Amounts and percentages are exact reals. */
  datatype Sale = Sale(
    id: string,
    cliente: string,
    telefone: string,
    corretor: string,
    construtora: string,
    empreendimento: string,
    bloco: string,
    unidade: string,
    dataVenda: string,
    valorTotalVenda: real,
    porcentagemComissaoTotal: real,
    porcentagemComissaoVendedor: real,
    valorComissaoPaga: real,
    statusRepasse: StatusRepasse,
    statusPagamento: StatusPagamento)

  datatype User = User(id: string, username: string, name: string, role: UserRole)

  /** The text the source stores for each transfer status. */
  function RepasseLabel(s: StatusRepasse): string
  {
    match s
    case NfsePendenciada => "NFS-e pendenciada"
    case NfseAprovada => "NFS-e aprovada"
    case Liberado => "Liberado"
    case Antecipado => "Antecipado"
    case Caixinha => "Caixinha"
    case Flash => "Flash"
    case Inadimplente => "Inadimplente"
  }

  /** The text the source stores for each payment status. */
  function PagamentoLabel(s: StatusPagamento): string
  {
    match s
    case Pendente => "Pendente"
    case PagoParcialmente => "Pago Parcialmente"
    case Pago => "Pago"
  }

  /** The text the source stores for each role. */
  function RoleLabel(r: UserRole): string
  {
    match r
    case Admin => "admin"
    case Gerente => "gerente"
    case Corretor => "corretor"
    case Financeiro => "financeiro"
  }

  /** Reads a transfer status back from its text; any other text is not a transfer status. */
  function ParseRepasse(t: string): (r: Option<StatusRepasse>)
    ensures r.Some? ==> RepasseLabel(r.value) == t
    ensures forall s: StatusRepasse :: RepasseLabel(s) == t ==> r == Some(s)
  {
    if t == "NFS-e pendenciada" then Some(NfsePendenciada)
    else if t == "NFS-e aprovada" then Some(NfseAprovada)
    else if t == "Liberado" then Some(Liberado)
    else if t == "Antecipado" then Some(Antecipado)
    else if t == "Caixinha" then Some(Caixinha)
    else if t == "Flash" then Some(Flash)
    else if t == "Inadimplente" then Some(Inadimplente)
    else None
  }

  /** Reads a payment status back from its text; any other text is not a payment status. */
  function ParsePagamento(t: string): (r: Option<StatusPagamento>)
    ensures r.Some? ==> PagamentoLabel(r.value) == t
    ensures forall s: StatusPagamento :: PagamentoLabel(s) == t ==> r == Some(s)
  {
    if t == "Pendente" then Some(Pendente)
    else if t == "Pago Parcialmente" then Some(PagoParcialmente)
    else if t == "Pago" then Some(Pago)
    else None
  }

  /** Reads a role back from its text; any other text is not a role. */
  function ParseRole(t: string): (r: Option<UserRole>)
    ensures r.Some? ==> RoleLabel(r.value) == t
    ensures forall s: UserRole :: RoleLabel(s) == t ==> r == Some(s)
  {
    if t == "admin" then Some(Admin)
    else if t == "gerente" then Some(Gerente)
    else if t == "corretor" then Some(Corretor)
    else if t == "financeiro" then Some(Financeiro)
    else None
  }

  /** No text is both a payment status and a transfer status, so one badge table can hold both. */
  lemma StatusLabelsDisjoint(p: StatusPagamento, t: StatusRepasse)
    ensures PagamentoLabel(p) != RepasseLabel(t)
  {
  }
}
