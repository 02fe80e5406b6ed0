/** Shared vocabulary of the savings tracker: the savings record ("economia"), the
    payload sent to the database, the rows it returns, attachments, and the rules
    every store applies when a record is created or reviewed.

    JavaScript truthiness is modelled throughout by letting the falsy value stand
    for "absent": an empty string for a missing text field, 0.0 for a missing or
    unparsable amount, `None` where the source keeps an explicit null. */
module Domain {

  datatype Option<+T> = None | Some(value: T)

  datatype Result<+T, +E> = Success(value: T) | Failure(error: E)

  /** Milliseconds since the epoch; every clock reading is a parameter. */
  type Instant = int

  // Record statuses
  const APROVADO: string := "Aprovado"
  const PENDENTE: string := "Pendente"
  const REPROVADO: string := "Reprovado"

  // Kinds of savings (`tipoEconomia`); a record from the legacy save has none ("")
  const CANCELAMENTO: string := "Cancelamento"
  const CORRECAO: string := "Correção"

  /** The approval track that is approved on creation. */
  const BID: string := "BID"

  // Currencies
  const BRL: string := "BRL"
  const USD: string := "USD"

  // Roles
  const AUDITOR: string := "auditor"
  const GESTOR: string := "gestor"

  /** An evidence file. Fields a given store does not keep are "". */
  datatype Arquivo = Arquivo(
    id: string,
    nome: string,
    tipo: string,
    storagePath: string,
    url: string,
    dados: string)

  /** A savings record in the application's (camelCase) shape. */
  datatype Economia = Economia(
    id: string,
    userId: string,
    userName: string,
    tipoEconomia: string,
    codigoFornecedor: string,
    data: string,
    moeda: string,
    ptax: Option<real>,
    agio: real,
    valorCancelado: real,
    valorBRL: real,
    valorOriginal: real,
    valorCorrigido: real,
    valorOriginalBRL: real,
    valorCorrigidoBRL: real,
    valorEconomia: real,
    valorEconomiaBRL: real,
    tipo: string,
    descricao: string,
    arquivos: seq<Arquivo>,
    status: string,
    dataCriacao: Instant,
    dataAprovacao: Option<Instant>,
    observacoes: string)

  /** What the submission forms hand to a store's save operations. */
  datatype EconomiaData = EconomiaData(
    codigoFornecedor: string,
    data: string,
    moeda: string,
    ptax: Option<real>,
    agio: real,
    valorCancelado: real,
    valorBRL: real,
    valorOriginal: real,
    valorCorrigido: real,
    valorOriginalBRL: real,
    valorCorrigidoBRL: real,
    tipo: string,
    descricao: string,
    arquivos: seq<Arquivo>)

  /** The signed-in user as the backend-facing models see it. */
  datatype Actor = Actor(id: string, name: string, role: string)

  /** The payload inserted into the `economias` table (snake_case columns).
      An amount column the payload leaves out is `None`. */
  datatype Registro = Registro(
    userId: string,
    userName: string,
    tipoEconomia: string,
    codigoFornecedor: string,
    data: string,
    moeda: string,
    ptax: Option<real>,
    agio: real,
    valorCancelado: Option<real>,
    valorBRL: Option<real>,
    valorOriginal: Option<real>,
    valorCorrigido: Option<real>,
    valorOriginalBRL: Option<real>,
    valorCorrigidoBRL: Option<real>,
    valorEconomia: Option<real>,
    valorEconomiaBRL: Option<real>,
    tipo: string,
    descricao: string,
    arquivos: seq<Arquivo>,
    status: string,
    dataAprovacao: Option<Instant>,
    observacoes: string)

  /** A row read back from the database: the columns plus the generated id and
      the two creation-time columns (`data_criacao`, `created_at`), which the two
      backend-facing models read differently. */
  datatype Row = Row(id: string, dataCriacao: Instant, createdAt: Instant, fields: Registro)

  /** The backend's answer to an insert: refused with a message, or stored under a
      generated id and creation times. */
  datatype Inserted =
    | InsertFailed(message: string)
    | InsertedAs(id: string, dataCriacao: Instant, createdAt: Instant)

  /** The row an accepted insert stores. */
  function StoredRow(insert: Inserted, registro: Registro): (row: Row)
    requires insert.InsertedAs?
    ensures row.id == insert.id && row.fields == registro
  {
    Row(insert.id, insert.dataCriacao, insert.createdAt, registro)
  }

  /** `parseFloat(x) || 0` on a column: a missing or zero amount reads as 0. */
  function AmountOr0(x: Option<real>): (r: real)
    ensures x.Some? ==> r == x.value
    ensures x.None? ==> r == 0.0
  {
    if x.Some? then x.value else 0.0
  }

  /** `x || null` on an optional number: zero is falsy and becomes null. */
  function NonZero(x: Option<real>): (r: Option<real>)
    ensures r.Some? <==> x.Some? && x.value != 0.0
    ensures r.Some? ==> r.value == x.value
  {
    if x.Some? && x.value != 0.0 then x else None
  }

  /** `moeda || 'BRL'`. */
  function MoedaOrBRL(moeda: string): (r: string)
    ensures r != ""
    ensures moeda != "" ==> r == moeda
    ensures moeda == "" ==> r == BRL
  {
    if moeda == "" then BRL else moeda
  }

  /** Status a new record starts in: BID-track records are approved on creation. */
  function InitialStatus(tipo: string): (s: string)
    ensures s == APROVADO <==> tipo == BID
    ensures s == PENDENTE <==> tipo != BID
  {
    if tipo == BID then APROVADO else PENDENTE
  }

  /** Approval time of a new record: set (to the creation clock) only on the BID track. */
  function InitialApproval(tipo: string, now: Instant): (d: Option<Instant>)
    ensures d.Some? <==> tipo == BID
    ensures d.Some? ==> d.value == now
  {
    if tipo == BID then Some(now) else None
  }

  /** Status and approval time of a new record follow the BID rule: approved and
      stamped with the creation clock on the BID track, pending and unstamped
      otherwise. */
  ghost predicate BidRule(tipo: string, status: string, dataAprovacao: Option<Instant>, now: Instant)
  {
    && (status == APROVADO && dataAprovacao == Some(now) <==> tipo == BID)
    && (status == PENDENTE && dataAprovacao == None <==> tipo != BID)
  }

  /** The three fields a review writes. */
  datatype StatusUpdate = StatusUpdate(status: string, observacoes: string, dataAprovacao: Instant)

  /** A review applied to a record: status, notes and approval time are replaced and
      every other field is kept. The current status is not consulted. */
  function ApplyReview(e: Economia, u: StatusUpdate): (r: Economia)
    ensures r.status == u.status && r.observacoes == u.observacoes
    ensures r.dataAprovacao == Some(u.dataAprovacao)
    ensures r.(status := e.status, observacoes := e.observacoes, dataAprovacao := e.dataAprovacao) == e
  {
    e.(status := u.status, observacoes := u.observacoes, dataAprovacao := Some(u.dataAprovacao))
  }

  /** A second review overwrites the first entirely (last writer wins). */
  lemma ReviewLastWins(e: Economia, u1: StatusUpdate, u2: StatusUpdate)
    ensures ApplyReview(ApplyReview(e, u1), u2) == ApplyReview(e, u2)
  {
  }
}
