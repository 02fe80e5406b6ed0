/** The database-backed model: the payload each save builds and validates before
    inserting, the conversion of fetched rows into records (with their attachments
    fetched in one batch and grouped by record), and the attachment upload loop
    that keeps only the files whose every step succeeded. Every answer from the
    backend (insert outcome, fetched rows, per-file upload outcomes) is an input. */
module Model {
  import opened Domain
  import opened Collections

  datatype SaveError =
    | NotAuthenticated
    | NonPositiveCancelled
    | NegativeSavings
    | Rejected(message: string)  // the backend refused the insert

  /** A row as the application sees it, with its attachments. Missing supplier code,
      description and notes read as "", a missing currency as BRL, a missing
      premium or amount as 0; the other columns are taken as they are. */
  function FromDB(row: Row, arquivos: seq<Arquivo>): (e: Economia)
    ensures e.id == row.id && e.dataCriacao == row.dataCriacao && e.arquivos == arquivos
    ensures e.moeda != "" && (row.fields.moeda != "" ==> e.moeda == row.fields.moeda)
    ensures e.ptax == NonZero(row.fields.ptax)
    ensures row.fields.moeda == "" ==> e.moeda == BRL
    ensures e.userId == row.fields.userId && e.userName == row.fields.userName
    ensures e.tipoEconomia == row.fields.tipoEconomia && e.status == row.fields.status
    ensures e.codigoFornecedor == row.fields.codigoFornecedor && e.data == row.fields.data
    ensures e.agio == row.fields.agio && e.tipo == row.fields.tipo && e.descricao == row.fields.descricao
    ensures e.dataAprovacao == row.fields.dataAprovacao && e.observacoes == row.fields.observacoes
    ensures e.valorCancelado == AmountOr0(row.fields.valorCancelado)
    ensures e.valorBRL == AmountOr0(row.fields.valorBRL)
    ensures e.valorOriginal == AmountOr0(row.fields.valorOriginal)
    ensures e.valorCorrigido == AmountOr0(row.fields.valorCorrigido)
    ensures e.valorOriginalBRL == AmountOr0(row.fields.valorOriginalBRL)
    ensures e.valorCorrigidoBRL == AmountOr0(row.fields.valorCorrigidoBRL)
    ensures e.valorEconomia == AmountOr0(row.fields.valorEconomia)
    ensures e.valorEconomiaBRL == AmountOr0(row.fields.valorEconomiaBRL)
  {
    var f := row.fields;
    Economia(
      id := row.id, userId := f.userId, userName := f.userName, tipoEconomia := f.tipoEconomia,
      codigoFornecedor := f.codigoFornecedor, data := f.data, moeda := MoedaOrBRL(f.moeda),
      ptax := NonZero(f.ptax), agio := f.agio,
      valorCancelado := AmountOr0(f.valorCancelado), valorBRL := AmountOr0(f.valorBRL),
      valorOriginal := AmountOr0(f.valorOriginal), valorCorrigido := AmountOr0(f.valorCorrigido),
      valorOriginalBRL := AmountOr0(f.valorOriginalBRL), valorCorrigidoBRL := AmountOr0(f.valorCorrigidoBRL),
      valorEconomia := AmountOr0(f.valorEconomia), valorEconomiaBRL := AmountOr0(f.valorEconomiaBRL),
      tipo := f.tipo, descricao := f.descricao, arquivos := arquivos, status := f.status,
      dataCriacao := row.dataCriacao, dataAprovacao := f.dataAprovacao, observacoes := f.observacoes)
  }

  // ---------------------------------------------------------------------------
  // Attachments fetched in one batch and grouped by record

  /** A row of the attachments table. */
  datatype ArquivoRow = ArquivoRow(
    id: string,
    economiaId: string,
    nome: string,
    tipo: string,
    storagePath: string,
    url: string)

  function ToArquivo(a: ArquivoRow): Arquivo
  {
    Arquivo(a.id, a.nome, a.tipo, a.storagePath, a.url, "")
  }

  function BelongsTo(economiaId: string): (nat, ArquivoRow) -> Option<Arquivo>
  {
    (i: nat, a: ArquivoRow) => if a.economiaId == economiaId then Some(ToArquivo(a)) else None
  }

  /** The attachments of record `economiaId` among the fetched rows, in fetch order. */
  function ArquivosFor(rows: seq<ArquivoRow>, economiaId: string): seq<Arquivo>
  {
    Gather(rows, BelongsTo(economiaId))
  }

  /** `m` maps each record id with at least one fetched attachment to exactly its
      attachments, in fetch order, and has no other key. */
  ghost predicate GroupedBy(m: map<string, seq<Arquivo>>, rows: seq<ArquivoRow>)
  {
    forall k ::
      && (k in m ==> m[k] == ArquivosFor(rows, k) && m[k] != [])
      && (k !in m ==> ArquivosFor(rows, k) == [])
  }

  lemma ArquivosForSnoc(rows: seq<ArquivoRow>, i: nat, k: string)
    requires i < |rows|
    ensures ArquivosFor(rows[..i + 1], k)
            == ArquivosFor(rows[..i], k) + (if rows[i].economiaId == k then [ToArquivo(rows[i])] else [])
  {
    assert rows[..i + 1][..i] == rows[..i];
  }

  /** One fetch for all records: no ids or a failed fetch give an empty map,
      otherwise the fetched rows grouped by their record id. */
  method LoadArquivosBatch(economiaIds: seq<string>, fetched: Option<seq<ArquivoRow>>)
    returns (m: map<string, seq<Arquivo>>)
    ensures economiaIds == [] || fetched.None? ==> m == map[]
    ensures economiaIds != [] && fetched.Some? ==> GroupedBy(m, fetched.value)
  {
    if economiaIds == [] {
      return map[];
    }
    if fetched.None? {
      return map[];
    }
    var rows := fetched.value;
    m := map[];
    for i := 0 to |rows|
      invariant GroupedBy(m, rows[..i])
    {
      var a := rows[i];
      forall k
        ensures ArquivosFor(rows[..i + 1], k)
                == ArquivosFor(rows[..i], k) + (if a.economiaId == k then [ToArquivo(a)] else [])
      {
        ArquivosForSnoc(rows, i, k);
      }
      if a.economiaId !in m {
        m := m[a.economiaId := []];
      }
      m := m[a.economiaId := m[a.economiaId] + [ToArquivo(a)]];
    }
    assert rows[..|rows|] == rows;
  }

  /** Every fetched row as an attachment, in fetch order. */
  function AllArquivos(rows: seq<ArquivoRow>): seq<Arquivo>
  {
    seq(|rows|, i requires 0 <= i < |rows| => ToArquivo(rows[i]))
  }

  /** The attachments of a record are exactly the fetched rows carrying its id:
      `idx` lists the positions of those rows, every one of them once and in
      increasing order, and the k-th attachment is the row at `idx[k]`. */
  lemma ArquivosForMeaning(rows: seq<ArquivoRow>, economiaId: string) returns (idx: seq<nat>)
    ensures |idx| == |ArquivosFor(rows, economiaId)|
    ensures forall k :: 0 <= k < |idx| ==>
      idx[k] < |rows| && rows[idx[k]].economiaId == economiaId
      && ArquivosFor(rows, economiaId)[k] == ToArquivo(rows[idx[k]])
    ensures forall k, k' :: 0 <= k < k' < |idx| ==> idx[k] < idx[k']
    ensures forall j :: 0 <= j < |rows| && rows[j].economiaId == economiaId ==> j in idx
    ensures forall x :: x in ArquivosFor(rows, economiaId) <==>
      exists a :: a in rows && a.economiaId == economiaId && x == ToArquivo(a)
    ensures IsSubsequence(ArquivosFor(rows, economiaId), AllArquivos(rows))
  {
    var f := BelongsTo(economiaId);
    var r := ArquivosFor(rows, economiaId);
    idx := GatherPositions(rows, f);
    forall j | 0 <= j < |rows| && rows[j].economiaId == economiaId
      ensures j in idx
    {
      assert Selected(rows, f, j);
    }
    var all := AllArquivos(rows);
    forall k | 0 <= k < |idx|
      ensures idx[k] < |rows| && rows[idx[k]].economiaId == economiaId && r[k] == ToArquivo(rows[idx[k]])
      ensures r[k] == all[idx[k]]
    {
      assert f(idx[k], rows[idx[k]]) == Some(r[k]);
    }
    assert Embedding(idx, r, all);
    forall x | x in r
      ensures exists a :: a in rows && a.economiaId == economiaId && x == ToArquivo(a)
    {
      var k :| 0 <= k < |r| && r[k] == x;
      assert rows[idx[k]] in rows;
    }
    forall x | exists a :: a in rows && a.economiaId == economiaId && x == ToArquivo(a)
      ensures x in r
    {
      var a :| a in rows && a.economiaId == economiaId && x == ToArquivo(a);
      var j :| 0 <= j < |rows| && rows[j] == a;
      assert Selected(rows, f, j);
      var k :| 0 <= k < |idx| && idx[k] == j;
      assert r[k] == x;
    }
  }

  /** Rows fetched from the records table become records in the same order, each
      with its own attachments from a single batch fetch, `[]` when it has none. */
  method ConvertRows(rows: seq<Row>, fetched: Option<seq<ArquivoRow>>) returns (r: seq<Economia>)
    ensures |r| == |rows|
    ensures forall i :: 0 <= i < |rows| ==>
      r[i] == FromDB(rows[i], if fetched.Some? then ArquivosFor(fetched.value, rows[i].id) else [])
  {
    if rows == [] {
      return [];
    }
    var ids := seq(|rows|, i requires 0 <= i < |rows| => rows[i].id);
    var arquivosMap := LoadArquivosBatch(ids, fetched);
    r := seq(|rows|, i requires 0 <= i < |rows| =>
      FromDB(rows[i], if rows[i].id in arquivosMap then arquivosMap[rows[i].id] else []));
  }

  // ---------------------------------------------------------------------------
  // Attachment upload

  /** What the backend does with the `i`-th file: whether turning its data URL
      into a blob worked, the storage path it generated, whether the upload
      worked, the signed URL ("" when none came back) and the id of the
      reference row (`None` when that insert failed). */
  datatype UploadAttempt = UploadAttempt(
    blobOk: bool,
    storagePath: string,
    uploadOk: bool,
    signedUrl: string,
    refId: Option<string>)

  predicate IsDataUrl(s: string)
  {
    |s| >= 5 && s[..5] == "data:"
  }

  predicate UploadSucceeded(a: Arquivo, t: UploadAttempt)
  {
    IsDataUrl(a.dados) && t.blobOk && t.uploadOk && t.refId.Some?
  }

  /** The stored description of a file whose upload went through. */
  function Uploaded(a: Arquivo, t: UploadAttempt): Arquivo
    requires t.refId.Some?
  {
    Arquivo(t.refId.value, a.nome, a.tipo, t.storagePath, t.signedUrl, "")
  }

  function Uploader(backend: nat -> UploadAttempt): (nat, Arquivo) -> Option<Arquivo>
  {
    (i: nat, a: Arquivo) =>
      var t := backend(i);
      if UploadSucceeded(a, t) then Some(Uploaded(a, t)) else None
  }

  /** Upload each file in turn, skipping any file whose data is missing or whose
      blob conversion, upload or reference insert fails. */
  method UploadArquivos(arquivos: seq<Arquivo>, backend: nat -> UploadAttempt) returns (uploaded: seq<Arquivo>)
    ensures uploaded == Gather(arquivos, Uploader(backend))
  {
    uploaded := [];
    for i := 0 to |arquivos|
      invariant uploaded == Gather(arquivos[..i], Uploader(backend))
    {
      var arquivo := arquivos[i];
      var attempt := backend(i);
      GatherSnoc(arquivos, i, Uploader(backend));
      assert Uploader(backend)(i, arquivo) ==
        if UploadSucceeded(arquivo, attempt) then Some(Uploaded(arquivo, attempt)) else None;
      if !IsDataUrl(arquivo.dados) {
        assert uploaded == Gather(arquivos[..i + 1], Uploader(backend));
        continue;
      }
      if !attempt.blobOk {
        assert uploaded == Gather(arquivos[..i + 1], Uploader(backend));
        continue;
      }
      if !attempt.uploadOk {
        assert uploaded == Gather(arquivos[..i + 1], Uploader(backend));
        continue;
      }
      if attempt.refId.None? {
        assert uploaded == Gather(arquivos[..i + 1], Uploader(backend));
        continue;
      }
      uploaded := uploaded + [Arquivo(attempt.refId.value, arquivo.nome, arquivo.tipo,
                                      attempt.storagePath, attempt.signedUrl, "")];
    }
    assert arquivos[..|arquivos|] == arquivos;
  }

  /** The uploaded list holds, in input order, exactly the files whose every step
      succeeded, and is never longer than the input. */
  lemma UploadedInOrder(arquivos: seq<Arquivo>, backend: nat -> UploadAttempt) returns (idx: seq<nat>)
    ensures |Gather(arquivos, Uploader(backend))| <= |arquivos|
    ensures |idx| == |Gather(arquivos, Uploader(backend))|
    ensures forall k :: 0 <= k < |idx| ==>
      && idx[k] < |arquivos|
      && UploadSucceeded(arquivos[idx[k]], backend(idx[k]))
      && Gather(arquivos, Uploader(backend))[k] == Uploaded(arquivos[idx[k]], backend(idx[k]))
    ensures forall k1, k2 :: 0 <= k1 < k2 < |idx| ==> idx[k1] < idx[k2]
    ensures forall j :: 0 <= j < |arquivos| && UploadSucceeded(arquivos[j], backend(j)) ==> j in idx
  {
    var f := Uploader(backend);
    idx := GatherPositions(arquivos, f);
    forall k | 0 <= k < |idx|
      ensures UploadSucceeded(arquivos[idx[k]], backend(idx[k]))
      ensures Gather(arquivos, f)[k] == Uploaded(arquivos[idx[k]], backend(idx[k]))
    {
      assert f(idx[k], arquivos[idx[k]]) == Some(Gather(arquivos, f)[k]);
    }
    forall j | 0 <= j < |arquivos| && UploadSucceeded(arquivos[j], backend(j))
      ensures j in idx
    {
      assert Selected(arquivos, f, j);
    }
  }

  /** When every step succeeds for every file, every file is kept, under its
      name and type. */
  lemma AllUploadsKept(arquivos: seq<Arquivo>, backend: nat -> UploadAttempt)
    requires forall j :: 0 <= j < |arquivos| ==> UploadSucceeded(arquivos[j], backend(j))
    ensures |Gather(arquivos, Uploader(backend))| == |arquivos|
    ensures forall j :: 0 <= j < |arquivos| ==>
      Gather(arquivos, Uploader(backend))[j].nome == arquivos[j].nome
      && Gather(arquivos, Uploader(backend))[j].tipo == arquivos[j].tipo
  {
    var f := Uploader(backend);
    assert forall j :: 0 <= j < |arquivos| ==> f(j, arquivos[j]).Some?;
    GatherEverything(arquivos, f);
  }

  // ---------------------------------------------------------------------------
  // Saves

  /** The payload of a cancellation, or why it is refused before any insert. */
  function CancelamentoRegistro(session: Option<Actor>, d: EconomiaData, now: Instant)
    : (r: Result<Registro, SaveError>)
    ensures session.None? ==> r == Failure(NotAuthenticated)
    ensures session.Some? && d.valorCancelado <= 0.0 ==> r == Failure(NonPositiveCancelled)
    ensures r.Success? <==> session.Some? && d.valorCancelado > 0.0
    ensures r.Success? ==> r.value.userId == session.value.id && r.value.userName == session.value.name
    ensures r.Success? ==> r.value.tipoEconomia == CANCELAMENTO
    ensures r.Success? ==> r.value.valorCancelado == Some(d.valorCancelado)
    ensures r.Success? ==> r.value.valorEconomia == r.value.valorEconomiaBRL == r.value.valorBRL == Some(d.valorBRL)
    ensures r.Success? ==> r.value.valorOriginal == r.value.valorCorrigido == Some(0.0)
    ensures r.Success? ==> r.value.valorOriginalBRL.None? && r.value.valorCorrigidoBRL.None?
    ensures r.Success? ==> BidRule(d.tipo, r.value.status, r.value.dataAprovacao, now)
  {
    match session
    case None => Failure(NotAuthenticated)
    case Some(user) =>
      if d.valorCancelado <= 0.0 then Failure(NonPositiveCancelled)
      else
        Success(Registro(
          userId := user.id, userName := user.name, tipoEconomia := CANCELAMENTO,
          codigoFornecedor := d.codigoFornecedor, data := d.data, moeda := MoedaOrBRL(d.moeda),
          ptax := NonZero(d.ptax), agio := d.agio,
          valorCancelado := Some(d.valorCancelado), valorBRL := Some(d.valorBRL),
          valorOriginal := Some(0.0), valorCorrigido := Some(0.0),
          valorOriginalBRL := None, valorCorrigidoBRL := None,
          valorEconomia := Some(d.valorBRL), valorEconomiaBRL := Some(d.valorBRL),
          tipo := d.tipo, descricao := d.descricao, arquivos := [],
          status := InitialStatus(d.tipo), dataAprovacao := InitialApproval(d.tipo, now),
          observacoes := ""))
  }

  /** The payload of a correction, or why it is refused before any insert. */
  function CorrecaoRegistro(session: Option<Actor>, d: EconomiaData, now: Instant)
    : (r: Result<Registro, SaveError>)
    ensures session.None? ==> r == Failure(NotAuthenticated)
    ensures session.Some? && d.valorOriginal - d.valorCorrigido < 0.0 ==> r == Failure(NegativeSavings)
    ensures r.Success? <==> session.Some? && d.valorOriginal >= d.valorCorrigido
    ensures r.Success? ==> r.value.userId == session.value.id && r.value.userName == session.value.name
    ensures r.Success? ==> r.value.tipoEconomia == CORRECAO
    ensures r.Success? ==> r.value.valorEconomia == r.value.valorEconomiaBRL
                            == Some(d.valorOriginalBRL - d.valorCorrigidoBRL)
    ensures r.Success? ==> r.value.valorOriginal == Some(d.valorOriginal)
                            && r.value.valorCorrigido == Some(d.valorCorrigido)
    ensures r.Success? ==> r.value.valorCancelado == r.value.valorBRL == Some(0.0)
    ensures r.Success? ==> BidRule(d.tipo, r.value.status, r.value.dataAprovacao, now)
  {
    match session
    case None => Failure(NotAuthenticated)
    case Some(user) =>
      var valorEconomia := d.valorOriginal - d.valorCorrigido;
      var valorEconomiaBRL := d.valorOriginalBRL - d.valorCorrigidoBRL;
      if valorEconomia < 0.0 then Failure(NegativeSavings)
      else
        Success(Registro(
          userId := user.id, userName := user.name, tipoEconomia := CORRECAO,
          codigoFornecedor := d.codigoFornecedor, data := d.data, moeda := MoedaOrBRL(d.moeda),
          ptax := NonZero(d.ptax), agio := d.agio,
          valorCancelado := Some(0.0), valorBRL := Some(0.0),
          valorOriginal := Some(d.valorOriginal), valorCorrigido := Some(d.valorCorrigido),
          valorOriginalBRL := Some(d.valorOriginalBRL), valorCorrigidoBRL := Some(d.valorCorrigidoBRL),
          valorEconomia := Some(valorEconomiaBRL), valorEconomiaBRL := Some(valorEconomiaBRL),
          tipo := d.tipo, descricao := d.descricao, arquivos := [],
          status := InitialStatus(d.tipo), dataAprovacao := InitialApproval(d.tipo, now),
          observacoes := ""))
  }

  /** Insert a validated payload, then upload its files under the new id; upload
      failures are skipped and never undo the insert. */
  method Persist(registro: Registro, arquivos: seq<Arquivo>, insert: Inserted, backend: nat -> UploadAttempt)
    returns (r: Result<Economia, SaveError>)
    ensures insert.InsertFailed? ==> r == Failure(Rejected(insert.message))
    ensures insert.InsertedAs? ==>
      r == Success(FromDB(StoredRow(insert, registro), Gather(arquivos, Uploader(backend))))
  {
    if insert.InsertFailed? {
      return Failure(Rejected(insert.message));
    }
    var row := StoredRow(insert, registro);
    var uploaded := [];
    if |arquivos| > 0 {
      uploaded := UploadArquivos(arquivos, backend);
    }
    r := Success(FromDB(row, uploaded));
  }

  method SaveEconomiaCancelamento(session: Option<Actor>, d: EconomiaData, now: Instant,
                                  insert: Inserted, backend: nat -> UploadAttempt)
    returns (r: Result<Economia, SaveError>)
    ensures CancelamentoRegistro(session, d, now).Failure? ==>
      r == Failure(CancelamentoRegistro(session, d, now).error)
    ensures CancelamentoRegistro(session, d, now).Success? && insert.InsertFailed? ==>
      r == Failure(Rejected(insert.message))
    ensures r.Success? <==> CancelamentoRegistro(session, d, now).Success? && insert.InsertedAs?
    ensures r.Success? ==> r.value == FromDB(StoredRow(insert, CancelamentoRegistro(session, d, now).value),
                                             Gather(d.arquivos, Uploader(backend)))
  {
    var registro := CancelamentoRegistro(session, d, now);
    if registro.Failure? {
      return Failure(registro.error);
    }
    r := Persist(registro.value, d.arquivos, insert, backend);
  }

  method SaveEconomiaCorrecao(session: Option<Actor>, d: EconomiaData, now: Instant,
                              insert: Inserted, backend: nat -> UploadAttempt)
    returns (r: Result<Economia, SaveError>)
    ensures CorrecaoRegistro(session, d, now).Failure? ==>
      r == Failure(CorrecaoRegistro(session, d, now).error)
    ensures CorrecaoRegistro(session, d, now).Success? && insert.InsertFailed? ==>
      r == Failure(Rejected(insert.message))
    ensures r.Success? <==> CorrecaoRegistro(session, d, now).Success? && insert.InsertedAs?
    ensures r.Success? ==> r.value == FromDB(StoredRow(insert, CorrecaoRegistro(session, d, now).value),
                                             Gather(d.arquivos, Uploader(backend)))
  {
    var registro := CorrecaoRegistro(session, d, now);
    if registro.Failure? {
      return Failure(registro.error);
    }
    r := Persist(registro.value, d.arquivos, insert, backend);
  }

  /** A saved cancellation reads back with the form's values: the cancelled and
      BRL amounts, the BRL amount as its savings, the BID rule, and the files
      that were uploaded. */
  lemma CancelamentoReadBack(user: Actor, d: EconomiaData, now: Instant, insert: Inserted, arquivos: seq<Arquivo>)
    requires d.valorCancelado > 0.0 && insert.InsertedAs?
    ensures var e := FromDB(StoredRow(insert, CancelamentoRegistro(Some(user), d, now).value), arquivos);
      && e.id == insert.id && e.dataCriacao == insert.dataCriacao && e.userId == user.id && e.userName == user.name
      && e.tipoEconomia == CANCELAMENTO && e.codigoFornecedor == d.codigoFornecedor && e.data == d.data
      && e.moeda == MoedaOrBRL(d.moeda) && e.ptax == NonZero(d.ptax) && e.agio == d.agio
      && e.valorCancelado == d.valorCancelado
      && e.valorEconomia == e.valorEconomiaBRL == e.valorBRL == d.valorBRL
      && e.valorOriginal == 0.0 && e.valorCorrigido == 0.0
      && e.tipo == d.tipo && e.descricao == d.descricao && e.arquivos == arquivos
      && BidRule(d.tipo, e.status, e.dataAprovacao, now) && e.observacoes == ""
  {
  }

  /** A saved correction reads back with the form's values and the BRL
      difference as its savings. */
  lemma CorrecaoReadBack(user: Actor, d: EconomiaData, now: Instant, insert: Inserted, arquivos: seq<Arquivo>)
    requires d.valorOriginal >= d.valorCorrigido && insert.InsertedAs?
    ensures var e := FromDB(StoredRow(insert, CorrecaoRegistro(Some(user), d, now).value), arquivos);
      && e.id == insert.id && e.dataCriacao == insert.dataCriacao && e.userId == user.id && e.userName == user.name
      && e.tipoEconomia == CORRECAO && e.codigoFornecedor == d.codigoFornecedor && e.data == d.data
      && e.moeda == MoedaOrBRL(d.moeda) && e.ptax == NonZero(d.ptax) && e.agio == d.agio
      && e.valorOriginal == d.valorOriginal && e.valorCorrigido == d.valorCorrigido
      && e.valorOriginalBRL == d.valorOriginalBRL && e.valorCorrigidoBRL == d.valorCorrigidoBRL
      && e.valorEconomia == e.valorEconomiaBRL == d.valorOriginalBRL - d.valorCorrigidoBRL
      && e.valorCancelado == 0.0 && e.valorBRL == 0.0
      && e.tipo == d.tipo && e.descricao == d.descricao && e.arquivos == arquivos
      && BidRule(d.tipo, e.status, e.dataAprovacao, now) && e.observacoes == ""
  {
  }
}
