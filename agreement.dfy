/** The three stores build and read records differently. The dashboard totals
    nevertheless come out the same: a record saved from the same form data carries
    the same amount in each store, and the two readers of the database agree on
    every total. */
module StoreAgreement {
  import opened Domain
  import opened Totals
  import LocalStorageModel
  import Model
  import SupabaseModel

  /** Lists that agree record by record on amount and status have the same totals. */
  lemma {:induction false} SumsAgree(s: seq<Economia>, u: seq<Economia>, b: Bucket)
    requires |s| == |u|
    requires forall i :: 0 <= i < |s| ==> Amount(s[i]) == Amount(u[i]) && s[i].status == u[i].status
    ensures Sum(s, b) == Sum(u, b)
    decreases |s|
  {
    if s != [] {
      var n := |s| - 1;
      SumsAgree(s[..n], u[..n], b);
    }
  }

  /** Both readers of the database give the same totals for the same rows,
      whatever attachments the first one found. */
  lemma ReadersAgreeOnTotals(rows: seq<Row>, attachments: seq<seq<Arquivo>>, b: Bucket)
    requires |attachments| == |rows|
    ensures var converted := seq(|rows|, i requires 0 <= i < |rows| => Model.FromDB(rows[i], attachments[i]));
            Sum(converted, b) == Sum(SupabaseModel.NormalizeEconomias(rows), b)
  {
    var converted := seq(|rows|, i requires 0 <= i < |rows| => Model.FromDB(rows[i], attachments[i]));
    SumsAgree(converted, SupabaseModel.NormalizeEconomias(rows), b);
  }

  /** A cancellation saved from the same data counts the same amount in every
      store: its BRL value, or the cancelled value when that is 0. */
  lemma CancellationAmountAgrees(session: LocalStorageModel.Session, user: Actor, d: EconomiaData,
                                 id: string, now: Instant, insert: Inserted,
                                 arquivos: seq<Arquivo>, refs: seq<Arquivo>)
    requires d.valorCancelado > 0.0 && insert.InsertedAs?
    ensures Amount(LocalStorageModel.NewCancelamento(Some(session), d, id, now).value)
            == FirstNonZero(d.valorBRL, d.valorCancelado)
    ensures Amount(Model.FromDB(StoredRow(insert, Model.CancelamentoRegistro(Some(user), d, now).value), arquivos))
            == FirstNonZero(d.valorBRL, d.valorCancelado)
    ensures Amount(SupabaseModel.NormalizeEconomia(StoredRow(insert, SupabaseModel.CancelamentoPayload(user, d, now, refs))))
            == FirstNonZero(d.valorBRL, d.valorCancelado)
  {
  }

  /** A correction saved from the same data counts its BRL savings in every store. */
  lemma CorrectionAmountAgrees(session: LocalStorageModel.Session, user: Actor, d: EconomiaData,
                               id: string, now: Instant, insert: Inserted,
                               arquivos: seq<Arquivo>, refs: seq<Arquivo>)
    requires d.valorOriginal >= d.valorCorrigido && insert.InsertedAs?
    ensures Amount(LocalStorageModel.NewCorrecao(Some(session), d, id, now).value)
            == d.valorOriginalBRL - d.valorCorrigidoBRL
    ensures Amount(Model.FromDB(StoredRow(insert, Model.CorrecaoRegistro(Some(user), d, now).value), arquivos))
            == d.valorOriginalBRL - d.valorCorrigidoBRL
    ensures Amount(SupabaseModel.NormalizeEconomia(StoredRow(insert, SupabaseModel.CorrecaoPayload(user, d, now, refs))))
            == d.valorOriginalBRL - d.valorCorrigidoBRL
  {
  }
}
