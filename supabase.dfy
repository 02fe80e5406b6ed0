/** The second backend-facing model. It differs from the first in four ways:
    - creation is for auditors only and review is for managers only;
    - the files are uploaded before the insert, and any upload failure aborts the
      whole save;
    - the uploaded files' references travel inside the inserted row;
    - rows are normalised with no defaults except for the amounts and the file list.
    Upload and insert outcomes are inputs. */
module SupabaseModel {
  import opened Domain
  import opened Collections

  datatype SaveError =
    | NotAuthenticated
    | NotAuditor             // only auditors create records
    | NotManager             // only managers (or a missing user) review
    | NonPositiveCancelled
    | NegativeSavings
    | Failed(message: string)  // an upload or the insert threw

  /** A row in the application's shape: only the amounts (missing or zero read
      as 0) and the file list get defaults; every other column, the currency
      included, is taken as it is, and the creation time is `created_at`. */
  function NormalizeEconomia(row: Row): (e: Economia)
    ensures e.id == row.id && e.dataCriacao == row.createdAt && e.arquivos == row.fields.arquivos
    ensures e.moeda == row.fields.moeda && e.ptax == row.fields.ptax && e.agio == row.fields.agio
    ensures e.userId == row.fields.userId && e.userName == row.fields.userName
    ensures e.tipoEconomia == row.fields.tipoEconomia && e.status == row.fields.status
    ensures e.codigoFornecedor == row.fields.codigoFornecedor && e.data == row.fields.data
    ensures e.tipo == row.fields.tipo && e.descricao == row.fields.descricao
    ensures e.dataAprovacao == row.fields.dataAprovacao && e.observacoes == row.fields.observacoes
    ensures e.valorCancelado == AmountOr0(row.fields.valorCancelado)
    ensures e.valorBRL == AmountOr0(row.fields.valorBRL)
    ensures e.valorOriginal == AmountOr0(row.fields.valorOriginal)
    ensures e.valorCorrigido == AmountOr0(row.fields.valorCorrigido)
    ensures e.valorOriginalBRL == AmountOr0(row.fields.valorOriginalBRL)
    ensures e.valorCorrigidoBRL == AmountOr0(row.fields.valorCorrigidoBRL)
    ensures e.valorEconomia == AmountOr0(row.fields.valorEconomia)
    ensures e.valorEconomiaBRL == AmountOr0(row.fields.valorEconomiaBRL)
  {
    var f := row.fields;
    Economia(
      id := row.id, userId := f.userId, userName := f.userName, tipoEconomia := f.tipoEconomia,
      codigoFornecedor := f.codigoFornecedor, data := f.data, moeda := f.moeda,
      ptax := f.ptax, agio := f.agio,
      valorCancelado := AmountOr0(f.valorCancelado), valorBRL := AmountOr0(f.valorBRL),
      valorOriginal := AmountOr0(f.valorOriginal), valorCorrigido := AmountOr0(f.valorCorrigido),
      valorOriginalBRL := AmountOr0(f.valorOriginalBRL), valorCorrigidoBRL := AmountOr0(f.valorCorrigidoBRL),
      valorEconomia := AmountOr0(f.valorEconomia), valorEconomiaBRL := AmountOr0(f.valorEconomiaBRL),
      tipo := f.tipo, descricao := f.descricao, arquivos := f.arquivos, status := f.status,
      dataCriacao := row.createdAt, dataAprovacao := f.dataAprovacao, observacoes := f.observacoes)
  }

  /** `Array.map` of the normaliser: same length, same order. */
  function NormalizeEconomias(rows: seq<Row>): (r: seq<Economia>)
    ensures |r| == |rows|
    ensures forall i :: 0 <= i < |rows| ==> r[i] == NormalizeEconomia(rows[i])
  {
    seq(|rows|, i requires 0 <= i < |rows| => NormalizeEconomia(rows[i]))
  }

  /** The row the backend holds after a review of `row`. */
  function ReviewedRow(row: Row, u: StatusUpdate): Row
  {
    row.(fields := row.fields.(status := u.status, observacoes := u.observacoes,
                               dataAprovacao := Some(u.dataAprovacao)))
  }

  /** Normalising a reviewed row is reviewing the normalised record. */
  lemma NormalizeCommutesWithReview(row: Row, u: StatusUpdate)
    ensures NormalizeEconomia(ReviewedRow(row, u)) == ApplyReview(NormalizeEconomia(row), u)
  {
  }

  // ---------------------------------------------------------------------------
  // Guards

  /** Why a creation request is refused before anything is uploaded: no user,
      a user who is not an auditor, then the amount check. */
  function CancelamentoRejection(user: Option<Actor>, d: EconomiaData): (r: Option<SaveError>)
    ensures r.None? <==> user.Some? && user.value.role == AUDITOR && d.valorCancelado > 0.0
    ensures user.None? ==> r == Some(NotAuthenticated)
    ensures user.Some? && user.value.role != AUDITOR ==> r == Some(NotAuditor)
    ensures r == Some(NonPositiveCancelled) ==> d.valorCancelado <= 0.0
    ensures user.Some? && user.value.role == AUDITOR && d.valorCancelado <= 0.0 ==> r == Some(NonPositiveCancelled)
  {
    if user.None? then Some(NotAuthenticated)
    else if user.value.role != AUDITOR then Some(NotAuditor)
    else if d.valorCancelado <= 0.0 then Some(NonPositiveCancelled)
    else None
  }

  function CorrecaoRejection(user: Option<Actor>, d: EconomiaData): (r: Option<SaveError>)
    ensures r.None? <==> user.Some? && user.value.role == AUDITOR && d.valorOriginal >= d.valorCorrigido
    ensures user.None? ==> r == Some(NotAuthenticated)
    ensures user.Some? && user.value.role != AUDITOR ==> r == Some(NotAuditor)
    ensures r == Some(NegativeSavings) ==> d.valorOriginal - d.valorCorrigido < 0.0
    ensures user.Some? && user.value.role == AUDITOR && d.valorOriginal - d.valorCorrigido < 0.0
            ==> r == Some(NegativeSavings)
  {
    if user.None? then Some(NotAuthenticated)
    else if user.value.role != AUDITOR then Some(NotAuditor)
    else if d.valorOriginal - d.valorCorrigido < 0.0 then Some(NegativeSavings)
    else None
  }

  /** A review request is sent only for a manager, and carries exactly the new
      status, the notes and the clock. */
  function StatusChange(user: Option<Actor>, newStatus: string, observacoes: string, now: Instant)
    : (r: Result<StatusUpdate, SaveError>)
    ensures r.Success? <==> user.Some? && user.value.role == GESTOR
    ensures r.Failure? ==> r.error == NotManager
    ensures r.Success? ==> r.value.status == newStatus && r.value.observacoes == observacoes
                           && r.value.dataAprovacao == now
  {
    if user.None? || user.value.role != GESTOR then Failure(NotManager)
    else Success(StatusUpdate(newStatus, observacoes, now))
  }

  // ---------------------------------------------------------------------------
  // Upload before insert

  /** Where the storage put a file. */
  datatype StoredFile = StoredFile(url: string, path: string)

  /** The reference to an uploaded file that travels in the inserted row: the
      storage path the upload returned becomes `storagePath`, its public url
      `url`, and only the file name is kept from the original. */
  function FileRef(a: Arquivo, s: StoredFile): Arquivo
  {
    Arquivo("", a.nome, "", s.path, s.url, "")
  }

  /** The `i`-th file's conversion and upload: where it was stored, or the
      message of the exception it threw. */
  function Storer(storage: nat -> Result<StoredFile, string>): (nat, Arquivo) -> Result<Arquivo, string>
  {
    (i: nat, a: Arquivo) =>
      match storage(i)
      case Success(s) => Success(FileRef(a, s))
      case Failure(m) => Failure(m)
  }

  /** Upload every file in turn; the first failure ends the loop. */
  method UploadAll(arquivos: seq<Arquivo>, storage: nat -> Result<StoredFile, string>)
    returns (r: Result<seq<Arquivo>, string>)
    ensures r == Collect(arquivos, Storer(storage))
  {
    var arquivosUrls := [];
    for i := 0 to |arquivos|
      invariant Collect(arquivos[..i], Storer(storage)) == Success(arquivosUrls)
    {
      var arquivo := arquivos[i];
      assert arquivos[..i + 1][..i] == arquivos[..i];
      var uploadResult := storage(i);
      if uploadResult.Failure? {
        CollectPrefixFailure(arquivos, i + 1, Storer(storage));
        return Failure(uploadResult.error);
      }
      arquivosUrls := arquivosUrls + [FileRef(arquivo, uploadResult.value)];
    }
    assert arquivos[..|arquivos|] == arquivos;
    r := Success(arquivosUrls);
  }

  /** The cancellation payload, carrying the uploaded file references. It has no
      BRL savings column. */
  function CancelamentoPayload(user: Actor, d: EconomiaData, now: Instant, arquivos: seq<Arquivo>)
    : (r: Registro)
    ensures r.userId == user.id && r.userName == user.name && r.tipoEconomia == CANCELAMENTO
    ensures r.valorCancelado == Some(d.valorCancelado)
    ensures r.valorEconomia == r.valorBRL == Some(d.valorBRL) && r.valorEconomiaBRL.None?
    ensures r.valorOriginal == r.valorCorrigido == Some(0.0)
    ensures r.valorOriginalBRL.None? && r.valorCorrigidoBRL.None?
    ensures r.codigoFornecedor == d.codigoFornecedor && r.data == d.data && r.agio == d.agio
    ensures r.moeda == MoedaOrBRL(d.moeda) && r.ptax == NonZero(d.ptax)
    ensures r.tipo == d.tipo && r.descricao == d.descricao && r.observacoes == ""
    ensures r.arquivos == arquivos
    ensures BidRule(d.tipo, r.status, r.dataAprovacao, now)
  {
    Registro(
      userId := user.id, userName := user.name, tipoEconomia := CANCELAMENTO,
      codigoFornecedor := d.codigoFornecedor, data := d.data, moeda := MoedaOrBRL(d.moeda),
      ptax := NonZero(d.ptax), agio := d.agio,
      valorCancelado := Some(d.valorCancelado), valorBRL := Some(d.valorBRL),
      valorOriginal := Some(0.0), valorCorrigido := Some(0.0),
      valorOriginalBRL := None, valorCorrigidoBRL := None,
      valorEconomia := Some(d.valorBRL), valorEconomiaBRL := None,
      tipo := d.tipo, descricao := d.descricao, arquivos := arquivos,
      status := InitialStatus(d.tipo), dataAprovacao := InitialApproval(d.tipo, now),
      observacoes := "")
  }

  /** The correction payload. It has no BRL amount column. */
  function CorrecaoPayload(user: Actor, d: EconomiaData, now: Instant, arquivos: seq<Arquivo>)
    : (r: Registro)
    ensures r.userId == user.id && r.userName == user.name && r.tipoEconomia == CORRECAO
    ensures r.valorEconomia == r.valorEconomiaBRL == Some(d.valorOriginalBRL - d.valorCorrigidoBRL)
    ensures r.valorCancelado == Some(0.0) && r.valorBRL.None?
    ensures r.valorOriginal == Some(d.valorOriginal) && r.valorCorrigido == Some(d.valorCorrigido)
    ensures r.valorOriginalBRL == Some(d.valorOriginalBRL) && r.valorCorrigidoBRL == Some(d.valorCorrigidoBRL)
    ensures r.codigoFornecedor == d.codigoFornecedor && r.data == d.data && r.agio == d.agio
    ensures r.moeda == MoedaOrBRL(d.moeda) && r.ptax == NonZero(d.ptax)
    ensures r.tipo == d.tipo && r.descricao == d.descricao && r.observacoes == ""
    ensures r.arquivos == arquivos
    ensures BidRule(d.tipo, r.status, r.dataAprovacao, now)
  {
    var valorEconomiaBRL := d.valorOriginalBRL - d.valorCorrigidoBRL;
    Registro(
      userId := user.id, userName := user.name, tipoEconomia := CORRECAO,
      codigoFornecedor := d.codigoFornecedor, data := d.data, moeda := MoedaOrBRL(d.moeda),
      ptax := NonZero(d.ptax), agio := d.agio,
      valorCancelado := Some(0.0), valorBRL := None,
      valorOriginal := Some(d.valorOriginal), valorCorrigido := Some(d.valorCorrigido),
      valorOriginalBRL := Some(d.valorOriginalBRL), valorCorrigidoBRL := Some(d.valorCorrigidoBRL),
      valorEconomia := Some(valorEconomiaBRL), valorEconomiaBRL := Some(valorEconomiaBRL),
      tipo := d.tipo, descricao := d.descricao, arquivos := arquivos,
      status := InitialStatus(d.tipo), dataAprovacao := InitialApproval(d.tipo, now),
      observacoes := "")
  }

  /** Which of the two creation forms a save comes from. */
  datatype Kind = Cancellation | Correction

  function Rejection(kind: Kind, user: Option<Actor>, d: EconomiaData): Option<SaveError>
  {
    match kind
    case Cancellation => CancelamentoRejection(user, d)
    case Correction => CorrecaoRejection(user, d)
  }

  function Payload(kind: Kind, user: Actor, d: EconomiaData, now: Instant, arquivos: seq<Arquivo>): Registro
  {
    match kind
    case Cancellation => CancelamentoPayload(user, d, now, arquivos)
    case Correction => CorrecaoPayload(user, d, now, arquivos)
  }

  /** What a save reports: the guard's refusal, else the first upload failure,
      else the insert's failure, else the stored row normalised. */
  function Saved(kind: Kind, user: Option<Actor>, d: EconomiaData, now: Instant,
                 storage: nat -> Result<StoredFile, string>, insert: Inserted)
    : (r: Result<Economia, SaveError>)
    ensures Rejection(kind, user, d).Some? ==> r == Failure(Rejection(kind, user, d).value)
    ensures r.Success? ==> user.Some? && insert.InsertedAs? && Collect(d.arquivos, Storer(storage)).Success?
    ensures r.Success? ==>
      r.value == NormalizeEconomia(StoredRow(insert, Payload(kind, user.value, d, now,
                                                             Collect(d.arquivos, Storer(storage)).value)))
  {
    match Rejection(kind, user, d)
    case Some(err) => Failure(err)
    case None =>
      match Collect(d.arquivos, Storer(storage))
      case Failure(m) => Failure(Failed(m))
      case Success(refs) =>
        if insert.InsertFailed? then Failure(Failed(insert.message))
        else Success(NormalizeEconomia(StoredRow(insert, Payload(kind, user.value, d, now, refs))))
  }

  /** The save both creation operations share once their own guard has passed. */
  method Save(kind: Kind, user: Option<Actor>, d: EconomiaData, now: Instant,
              storage: nat -> Result<StoredFile, string>, insert: Inserted)
    returns (r: Result<Economia, SaveError>)
    ensures r == Saved(kind, user, d, now, storage, insert)
  {
    var rejection := Rejection(kind, user, d);
    if rejection.Some? {
      return Failure(rejection.value);
    }
    var uploads := UploadAll(d.arquivos, storage);
    if uploads.Failure? {
      return Failure(Failed(uploads.error));
    }
    if insert.InsertFailed? {
      return Failure(Failed(insert.message));
    }
    r := Success(NormalizeEconomia(StoredRow(insert, Payload(kind, user.value, d, now, uploads.value))));
  }

  method SaveEconomiaCancelamento(user: Option<Actor>, d: EconomiaData, now: Instant,
                                  storage: nat -> Result<StoredFile, string>, insert: Inserted)
    returns (r: Result<Economia, SaveError>)
    ensures r == Saved(Cancellation, user, d, now, storage, insert)
  {
    r := Save(Cancellation, user, d, now, storage, insert);
  }

  method SaveEconomiaCorrecao(user: Option<Actor>, d: EconomiaData, now: Instant,
                              storage: nat -> Result<StoredFile, string>, insert: Inserted)
    returns (r: Result<Economia, SaveError>)
    ensures r == Saved(Correction, user, d, now, storage, insert)
  {
    r := Save(Correction, user, d, now, storage, insert);
  }

  /** A save succeeds exactly when an auditor passes the amount check, every file
      uploads and the insert is accepted; the record then carries one reference
      per file, in order. */
  lemma {:induction false} SavedIff(kind: Kind, user: Option<Actor>, d: EconomiaData, now: Instant,
                                    storage: nat -> Result<StoredFile, string>, insert: Inserted)
    ensures var r := Saved(kind, user, d, now, storage, insert);
      && (r.Success? <==>
            && user.Some? && user.value.role == AUDITOR
            && (kind.Cancellation? ==> d.valorCancelado > 0.0)
            && (kind.Correction? ==> d.valorOriginal >= d.valorCorrigido)
            && (forall j :: 0 <= j < |d.arquivos| ==> storage(j).Success?)
            && insert.InsertedAs?)
      && (r.Success? ==>
            && |r.value.arquivos| == |d.arquivos|
            && forall j :: 0 <= j < |d.arquivos| ==> r.value.arquivos[j] == FileRef(d.arquivos[j], storage(j).value))
  {
    var f := Storer(storage);
    CollectSucceeds(d.arquivos, f);
    forall j | 0 <= j < |d.arquivos|
      ensures f(j, d.arquivos[j]).Success? <==> storage(j).Success?
      ensures storage(j).Success? ==> f(j, d.arquivos[j]).value == FileRef(d.arquivos[j], storage(j).value)
    {
    }
  }

  /** An upload failure is reported with the message of the first file that failed,
      and nothing is inserted. */
  lemma {:induction false} FirstUploadFailureReported(kind: Kind, user: Option<Actor>, d: EconomiaData, now: Instant,
                                                      storage: nat -> Result<StoredFile, string>, insert: Inserted)
    returns (i: nat)
    requires Rejection(kind, user, d).None?
    requires exists j :: 0 <= j < |d.arquivos| && storage(j).Failure?
    ensures i < |d.arquivos| && storage(i).Failure?
    ensures forall j :: 0 <= j < i ==> storage(j).Success?
    ensures Saved(kind, user, d, now, storage, insert) == Failure(Failed(storage(i).error))
  {
    var f := Storer(storage);
    CollectSucceeds(d.arquivos, f);
    var j :| 0 <= j < |d.arquivos| && storage(j).Failure?;
    assert f(j, d.arquivos[j]).Failure?;
    i := CollectFirstFailure(d.arquivos, f);
    forall k | 0 <= k < i
      ensures storage(k).Success?
    {
      assert f(k, d.arquivos[k]).Success?;
    }
  }

  /** The update sent for a review: the new review fields, applied to the row
      whose id is `economiaId`. */
  datatype StatusRequest = StatusRequest(economiaId: string, update: StatusUpdate)

  /** Review: refused for anyone but a manager, before any request; otherwise the
      update of the record with this id is sent, and the result is the backend's
      updated row, normalised, or its error. */
  method UpdateEconomiaStatus(user: Option<Actor>, economiaId: string, newStatus: string,
                              observacoes: string, now: Instant, updated: Result<Row, string>)
    returns (request: Option<StatusRequest>, r: Result<Economia, SaveError>)
    ensures request.Some? <==> user.Some? && user.value.role == GESTOR
    ensures request.None? ==> r == Failure(NotManager)
    ensures request.Some? ==>
      request.value.economiaId == economiaId && request.value.update == StatusUpdate(newStatus, observacoes, now)
    ensures request.Some? && updated.Failure? ==> r == Failure(Failed(updated.error))
    ensures request.Some? && updated.Success? ==> r == Success(NormalizeEconomia(updated.value))
  {
    var change := StatusChange(user, newStatus, observacoes, now);
    if change.Failure? {
      return None, Failure(change.error);
    }
    request := Some(StatusRequest(economiaId, change.value));
    if updated.Failure? {
      r := Failure(Failed(updated.error));
    } else {
      r := Success(NormalizeEconomia(updated.value));
    }
  }
}
