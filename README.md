# Savings tracker — a verified model of its business rules

The system records the savings ("economias") that auditors obtain from suppliers. A saving is
either a **Cancelamento**, a purchase that was cancelled, or a **Correção**, a price that was
corrected down. Each record has an amount in BRL. When the deal was in USD, the amount is
converted with the Banco Central do Brasil PTAX sell rate plus a premium ("ágio"). Each
record also has proof files and a review status.

- A record of type `BID` is approved on creation.
- Every other record waits as `Pendente` until a manager (`gestor`) approves or rejects it.
- The dashboard shows four totals: everything not rejected, approved, pending and rejected.

The model covers four layers, one module per source file plus shared modules:

| module | file | models |
|---|---|---|
| `Domain` | `domain.dfy` | The record, the form data, the database row, the BID rule and the review update. All three stores share them. |
| `Collections` | `collections.dfy` | Order-preserving filter-map (`Gather`), fail-fast traversal (`Collect`) and subsequences. These are the shapes of the source's `filter`, `forEach`/`push`/`continue` and early-return loops. |
| `Totals` | `totals.dfy` | `calculateTotals`, which appears three times in the source (in `js/model.js`, `js/supabase-model.js` and `js/model-localstorage.js`). |
| `LocalStorageModel` | `localstorage.dfy` | `js/model-localstorage.js`. The browser store is a class `LocalStore` whose `economias` list is appended to and updated in place. |
| `Model` | `model.dfy` | `js/model.js`. It covers row conversion with defaults, grouping of attachment rows, the upload loop that skips failures, and the insert-then-upload saves. |
| `SupabaseModel` | `supabase.dfy` | `js/supabase-model.js`. It covers role guards, normalisation, and the upload-then-insert saves that abort on the first failed upload. |
| `Controller` | `controller.dfy` | `js/controller.js`. It covers the PTAX date rewrite, the conversions, the discount, the fail-fast form validation, the role-based loading and the approval guards. |
| `StoreAgreement` | `agreement.dfy` | The same form data gives the same dashboard amount in all three stores. |

Conventions:

- Money is `real`.
- A parsed number that may be absent or unparsable is an `Option<real>`. JavaScript's `parseFloat(x) || 0` falls through on 0 as well as on absence, and the model follows that.
- Instants are integer milliseconds.
- The outcomes of I/O are parameters of the operations: the insert's answer, each upload's answer, the fetched attachment rows, a failed load and the user's confirmation.

## Model

| member | source | states |
|---|---|---|
| Domain.AmountOr0 | js/supabase-model.js:86-93 | an absent or unparsable amount reads as 0; a present one is kept |
| Domain.NonZero | js/model.js:46 | the exchange rate is kept exactly when present and non-zero, otherwise null |
| Domain.MoedaOrBRL | js/model.js:45 | a given currency is kept and an empty one becomes BRL, so the currency is never empty |
| Domain.InitialStatus | js/model-localstorage.js:128 | a new record is `Aprovado` iff its type is BID and `Pendente` iff it is not |
| Domain.InitialApproval | js/model-localstorage.js:130 | a new record has an approval instant iff its type is BID, and that instant is the creation instant |
| Domain.ApplyReview | js/model-localstorage.js:151-153 | a review sets status, notes and approval instant, and every other field of the record is unchanged |
| Domain.ReviewLastWins | js/model-localstorage.js:143-158 | the current status is not checked: a second review overwrites the first |
| Domain.StoredRow | js/model.js:322-326 | the row an accepted insert returns carries the insert's id and exactly the fields sent |
| Collections.SubsequenceTransitive | js/model-localstorage.js:176-200 | filtering a filtered list still yields an order-preserving subsequence of the original |
| Collections.GatherPositions | js/model.js:210-279 | an order-preserving filter-map keeps, in input order, exactly the elements it accepts |
| Collections.GatherEverything | js/model.js:210-279 | when every element is accepted, nothing is dropped and positions are kept |
| Collections.GatherNothing | js/model.js:210-279 | when no element is accepted, the result is empty |
| Collections.CollectSucceeds | js/controller.js:524-551 | a fail-fast traversal succeeds iff every element succeeds, and then yields every element's value in order |
| Collections.CollectFirstFailure | js/controller.js:524-551 | a failed traversal reports the error of the first failing element, and all elements before it succeeded |
| Collections.CollectPrefixFailure | js/supabase-model.js:126-141 | once a prefix has failed, later elements do not change the outcome |
| Totals.FirstNonZero | js/model.js:546-550 | the `a \|\| b` fallback: the first value unless it is 0 |
| Totals.Amount | js/model.js:546-550 | a cancellation counts its BRL value, or the cancelled value when that is 0; any other record its BRL savings, or the raw savings when that is 0 |
| Totals.SumBounds | js/model.js:535-566 | a total over records none of which is in its bucket is 0, and no total is negative when no amount is |
| Totals.CalculateTotals | js/model.js:535-566 | the single pass gives each total as the sum of its bucket: counted (not `Reprovado`), `Aprovado`, `Pendente`, `Reprovado`; an empty list gives four zeros |
| Totals.SumAppend | js/model.js:545-563 | totals over a concatenation are the sums of the parts' totals |
| Totals.SumPermutation | js/model.js:545-563 | totals do not depend on the order of the records |
| Totals.CountedIsApprovedPlusPending | js/model.js:552-562 | when every status is one of the three, the counted total is approved plus pending |
| Totals.CountedPlusRejectedIsEverything | js/model.js:552-562 | the counted and rejected totals partition the amount of every record |
| LocalStorageModel.FindUser | js/model-localstorage.js:47 | login finds the first user whose username and password both match, or reports that none does |
| LocalStorageModel.IndexOfId | js/model-localstorage.js:145 | the index of the first record with the id, or none when no record has it |
| LocalStorageModel.NewEconomia | js/model-localstorage.js:99-138 | no session → not authenticated; negative raw savings → rejected; otherwise a record stamped with the session user, id, creation instant and BID rule, holding the raw non-negative difference |
| LocalStorageModel.NewCancelamento | js/model-localstorage.js:248-291 | no session → not authenticated; cancelled value ≤ 0 → rejected; otherwise the supplier, date, premium, type, description and attachments are copied, savings = BRL value, original = corrected = 0, currency defaulted to BRL, a zero rate stored as none, BID rule |
| LocalStorageModel.NewCorrecao | js/model-localstorage.js:296-345 | no session → not authenticated; negative raw difference → rejected; otherwise the supplier, date, premium, type, description, attachments, original, corrected and both BRL legs are copied, savings = BRL savings = BRL original − BRL corrected, cancelled = 0, currency defaulted to BRL, a zero rate stored as none, BID rule |
| LocalStorageModel.StatusUpdated | js/model-localstorage.js:143-158 | the update fails iff no record has the id; otherwise the list keeps its length (the reviewed record is stated by `LocalStore.UpdateEconomiaStatus`) |
| LocalStorageModel.UpdateTwiceLastWins | js/model-localstorage.js:143-158 | two reviews of the same record leave the store as the second one alone would |
| LocalStorageModel.SelectMeaning | js/model-localstorage.js:176-200 | one filter keeps exactly the records meeting its criterion, each as many times as it is stored, as an order-preserving subsequence |
| LocalStorageModel.SelectCount | js/model-localstorage.js:176-200 | one filter keeps every copy of a record meeting its criterion and no copy of any other |
| LocalStorageModel.Holds | js/model-localstorage.js:196-199 | the end-date filter includes the whole of its day, up to 23:59:59.999 |
| LocalStorageModel.FilterStep | js/model-localstorage.js:176-200 | applying the next filter (or skipping it when its field is empty) narrows the list to the records meeting one more criterion, with their stored multiplicity, as a subsequence |
| LocalStorageModel.FilterUpToNarrows | js/model-localstorage.js:171-203 | after k stages the list holds exactly the records meeting the first k criteria, each as many times as it is stored, in store order |
| LocalStorageModel.FilteredMeaning | js/model-localstorage.js:171-203 | the filtered list holds exactly the stored records meeting every non-empty filter, each as many times as it is stored, in store order; with no filter it is the whole store |
| LocalStorageModel.MatchesAllFive | js/model-localstorage.js:174-200 | passing the five stages is the same as meeting every non-empty filter, including the inclusive end of the last day |
| LocalStorageModel.LocalStore.InitializeSystem | js/model-localstorage.js:10-32 | the system starts with the two default users, no records and no session (so the session invariant holds) |
| LocalStorageModel.LocalStore.AuthenticateUser | js/model-localstorage.js:45-63 | a match stores and returns the first matching user's session; no match fails and leaves the session as it was; a stored session always belongs to a stored user |
| LocalStorageModel.LocalStore.GetCurrentSession | js/model-localstorage.js:68-71 | the stored session, none before a login and after a logout; it is the session of a stored account |
| LocalStorageModel.LocalStore.Logout | js/model-localstorage.js:76-78 | the session is cleared |
| LocalStorageModel.LocalStore.GetEconomiasByUser | js/model-localstorage.js:91-94 | exactly the records whose owner is the user, each as many times as it is stored, in store order |
| LocalStorageModel.LocalStore.GetEconomiaById | js/model-localstorage.js:163-166 | none iff no record has the id; otherwise the first record with it |
| LocalStorageModel.LocalStore.SaveEconomia | js/model-localstorage.js:99-138 | the result is the built record or its refusal; a success appends exactly that record, a refusal leaves the list unchanged |
| LocalStorageModel.LocalStore.SaveEconomiaCancelamento | js/model-localstorage.js:248-291 | as for saveEconomia, with the cancellation record and its checks |
| LocalStorageModel.LocalStore.SaveEconomiaCorrecao | js/model-localstorage.js:296-345 | as for saveEconomia, with the correction record and its checks |
| LocalStorageModel.LocalStore.UpdateEconomiaStatus | js/model-localstorage.js:143-158 | an unknown id fails and leaves the list unchanged; otherwise only the first matching record is reviewed, and the reviewed record is returned |
| LocalStorageModel.LocalStore.FilterEconomias | js/model-localstorage.js:171-203 | the successive filters return the records meeting every non-empty filter, each as many times as it is stored, as an order-preserving subsequence, and the whole store when no filter is set |
| Model.FromDB | js/model.js:37-64 | a row reads back with its id, creation date and attachments; every other column is kept except that an empty currency becomes BRL, a zero rate becomes none and each of the eight amounts reads as 0 when absent |
| Model.ArquivosForSnoc | js/model.js:121-129 | adding a fetched row extends only its own record's list, at the end |
| Model.LoadArquivosBatch | js/model.js:98-129 | no ids or a failed fetch give an empty map; otherwise each record id maps to exactly its fetched rows, in fetch order, and no other id appears |
| Model.ArquivosForMeaning | js/model.js:113-124 | a record's list holds, in fetch order, one attachment for each fetched row carrying its id and nothing else, as a subsequence of all fetched rows |
| Model.ConvertRows | js/model.js:134-145 | length and order are kept, and each row is converted with its own attachments, or none |
| Model.UploadArquivos | js/model.js:206-280 | the loop returns, in input order, the references of exactly the files whose data, upload and reference insert all succeeded |
| Model.UploadedInOrder | js/model.js:206-280 | the uploaded list is no longer than the input, and each entry comes from a successful file at an increasing position |
| Model.AllUploadsKept | js/model.js:206-280 | when every file succeeds, every file is returned at its own position |
| Model.CancelamentoRegistro | js/model.js:285-320 | no session → not authenticated; cancelled ≤ 0 → refused before any insert; otherwise savings = BRL savings = BRL value, original = corrected = 0, BID rule |
| Model.CorrecaoRegistro | js/model.js:346-382 | no session → not authenticated; negative raw difference → refused; otherwise the stored savings are the BRL difference, BID rule |
| Model.Persist | js/model.js:322-340 | a refused insert fails with its message; otherwise the stored row is returned with the files whose upload succeeded |
| Model.SaveEconomiaCancelamento | js/model.js:285-341 | success iff the record is valid and the insert is accepted; the result is the stored row read back with the uploaded files |
| Model.SaveEconomiaCorrecao | js/model.js:346-408 | success iff the record is valid and the insert is accepted; the result is the stored row read back with the uploaded files |
| Model.CancelamentoReadBack | js/model.js:300-340 | a saved cancellation reads back with the store's id and creation time and the form's supplier, date, currency, rate, premium, type and description, the BRL value as its savings, original = corrected = 0, and the BID rule |
| Model.CorrecaoReadBack | js/model.js:365-407 | a saved correction reads back with the store's id and creation time and the form's supplier, date, currency, rate, premium, amounts and BRL legs, the BRL difference as its savings, and the BID rule |
| SupabaseModel.NormalizeEconomia | js/supabase-model.js:75-102 | the row is renamed field by field: each of the eight amounts reads as 0 when absent or unparsable; every other column, currency and rate included, is kept as stored; the creation time is `created_at` |
| SupabaseModel.NormalizeEconomias | js/supabase-model.js:68-70 | length and order are kept, and each row is normalised |
| SupabaseModel.NormalizeCommutesWithReview | js/supabase-model.js:283-295 | normalising a reviewed row is reviewing the normalised record |
| SupabaseModel.CancelamentoRejection | js/supabase-model.js:108-122 | a cancellation passes iff an auditor is signed in and the cancelled value is positive; no user → not authenticated, a non-auditor → not an auditor, an auditor with a cancelled value ≤ 0 → non-positive value (both directions) |
| SupabaseModel.CorrecaoRejection | js/supabase-model.js:183-201 | a correction passes iff an auditor is signed in and the raw difference is non-negative; no user → not authenticated, a non-auditor → not an auditor, an auditor with a negative difference → negative savings (both directions) |
| SupabaseModel.StatusChange | js/supabase-model.js:275-289 | a status change is sent iff the user is a manager, and carries the new status and notes |
| SupabaseModel.UploadAll | js/supabase-model.js:124-141 | the files are uploaded in order, and the first failure aborts with its message |
| SupabaseModel.CancelamentoPayload | js/supabase-model.js:144-166 | the inserted cancellation copies the supplier, date, premium, type and description, defaults the currency to BRL and a zero rate to null, has savings = BRL value, no BRL savings or BRL leg fields, original = corrected = 0, empty notes, the uploaded references, and the BID rule |
| SupabaseModel.CorrecaoPayload | js/supabase-model.js:220-246 | the inserted correction copies the supplier, date, premium, type, description, original, corrected and both BRL legs, defaults the currency to BRL and a zero rate to null, has savings = BRL savings = the BRL difference, cancelled = 0, no BRL amount field, empty notes, the uploaded references, and the BID rule |
| SupabaseModel.Saved | js/supabase-model.js:107-177 | the guard's refusal comes first; success needs a user, all uploads and the insert; the result is the stored row normalised |
| SupabaseModel.Save | js/supabase-model.js:124-176 | the shared save follows guard, uploads, then insert |
| SupabaseModel.SaveEconomiaCancelamento | js/supabase-model.js:107-177 | the cancellation save is the shared save for a cancellation |
| SupabaseModel.SaveEconomiaCorrecao | js/supabase-model.js:182-257 | the correction save is the shared save for a correction |
| SupabaseModel.SavedIff | js/supabase-model.js:107-257 | a save succeeds iff an auditor passes the amount check, every upload succeeds and the insert is accepted; the record then has one reference per file, in order |
| SupabaseModel.FirstUploadFailureReported | js/supabase-model.js:126-141 | any failed upload aborts the save with the first failed file's message |
| SupabaseModel.UpdateEconomiaStatus | js/supabase-model.js:275-300 | a non-manager is refused and nothing is sent; otherwise the new status, notes and approval instant are sent for the record with the given id, and the answer is normalised or its error reported |
| Controller.SplitThenJoin | js/controller.js:294 | splitting a date on '-' and joining the parts restores it, and no part contains '-' |
| Controller.JoinThenSplit | js/controller.js:294 | joining parts without '-' and splitting again gives the parts back |
| Controller.PtaxQueryDateReorders | js/controller.js:294-295 | `YYYY-MM-DD` is rewritten as `MM-DD-YYYY`, with the same three parts |
| Controller.PtaxQueryDateExample | js/controller.js:294-295 | "2024-03-15" becomes "03-15-2024" |
| Controller.ConversionFactor | js/controller.js:625-626 | one dollar with the premium applied: the rate itself at 0% premium, positive for a positive rate and a premium above -100% |
| Controller.PtaxFromResponse | js/controller.js:303-314 | a rate is returned iff the response has a non-empty value list, and it is the first entry |
| Controller.CancellationConversion | js/controller.js:395-418 | a BRL amount is produced iff the currency is USD and both the USD value and the rate are non-zero, and it is value × (1 + ágio/100) × rate |
| Controller.CancellationConversionInverse | js/controller.js:403-406 | for a positive value, rate and factor, the BRL amount is positive and dividing by the factor recovers the USD value |
| Controller.CancellationConversionExample | js/controller.js:403-406 | 1000 USD at rate 5 and 10% ágio is 5500 BRL; BRL or a zero rate gives no conversion |
| Controller.CorrectionLegs | js/controller.js:614-628 | for USD both legs are multiplied by one factor, rate × (1 + ágio/100); for any other currency both are unchanged |
| Controller.CorrectionSavingsScale | js/controller.js:614-628 | the BRL savings are the raw savings times that factor, so they are non-negative when the raw ones are and the factor is positive |
| Controller.DiscountedValue | js/controller.js:464-467 | a corrected value is computed iff the original is positive and the discount lies in [0, 100], and it lies in [0, original] |
| Controller.DiscountRecoverable | js/controller.js:464-467 | the discount can be read back from the corrected and original values |
| Controller.DiscountExamples | js/controller.js:464-467 | 25% of 200 gives 150; 0% and 100% give the ends; 120% or an original of 0 compute nothing |
| Controller.DescontoCalculation | js/controller.js:457-473 | the corrected value changes only when the discount is on and its inputs are valid |
| Controller.DescontoToggle | js/controller.js:430-452 | ticking the box recalculates the corrected value; clearing it resets the discount to 0 and leaves the corrected value as it was |
| Controller.DescontoToggleOffThenOn | js/controller.js:430-452 | clearing and ticking the box again starts from a 0% discount, so the corrected value becomes the original |
| Controller.CheckFile | js/controller.js:527-549 | a file passes iff its type is allowed, it is at most 5 MiB and it was read; the type is checked before the size |
| Controller.CollectFiles | js/controller.js:524-551 | the loop accepts the files in order and stops at the first bad file with its error |
| Controller.FilesAcceptedIff | js/controller.js:524-551 | all files are accepted iff every file passes, and each becomes its own attachment in order |
| Controller.CancelamentoAmounts | js/controller.js:502-517 | the amounts are accepted iff a USD form has a rate and a positive BRL value; BRL keeps the cancelled value; USD without a rate waits for PTAX; USD with a rate but no positive BRL value fails the conversion |
| Controller.CancelamentoSubmission | js/controller.js:497-525 | the checks fail fast in the source's order: missing required fields, then PTAX pending, then the failed BRL conversion, then no files |
| Controller.CancelamentoAcceptedIff | js/controller.js:478-566 | the form is sent iff the required fields are present, the USD amounts are valid, there is at least one file and every file passes; the data sent carries the supplier, date, currency, premium, type and description unchanged, the rate only for USD, the BRL amount (the cancelled amount unless USD), zero correction legs, and one attachment per file with its name, type and contents, in order |
| Controller.FirstBadFileReported | js/controller.js:527-549 | with several bad files, the error is the first bad file's |
| Controller.CorrecaoFirstBadFileReported | js/controller.js:638-661 | with several bad files in a correction, the error is the first bad file's |
| Controller.CancelamentoSendsConversion | js/controller.js:403-406 | a USD cancellation sends the conversion as its BRL value |
| Controller.HandleCancelamentoSubmit | js/controller.js:478-566 | the handler computes exactly `CancelamentoSubmission`, so it stops at the first of: required fields, PTAX, BRL value, no files, first bad file |
| Controller.CorrecaoSubmission | js/controller.js:609-633 | missing required fields come first, then a USD form without a rate waits for PTAX, then a form without files is refused |
| Controller.CorrecaoAcceptedIff | js/controller.js:589-676 | the form is sent iff the required fields are present, a USD form has a rate, there is at least one file and every file passes; the data sent carries the supplier, date, currency, premium, type and description unchanged, the rate only for USD, no cancelled amount, each BRL leg as its raw value times rate × (1 + ágio/100) for USD and unchanged otherwise, and one attachment per file with its name, type and contents, in order |
| Controller.FullDiscountRefusedAsMissing | js/controller.js:609 | a 100% discount gives a corrected value of 0, which the truthiness check reports as a missing field |
| Controller.FormCorrectionStoresNonNegativeSavings | js/controller.js:614-628 | an accepted correction with non-negative raw savings, a positive rate and ágio above −100% is stored with non-negative savings |
| Controller.HandleCorrecaoSubmit | js/controller.js:589-676 | the handler computes exactly `CorrecaoSubmission`, so it stops at the first of: required fields, PTAX, no files, first bad file, and sends the legs converted by one factor |
| Controller.LoadEconomias | js/controller.js:105-138 | a manager gets the whole store, or exactly the filtered store; anyone else gets exactly `Select` of their own records (each as many times as stored, in store order); a failed load gives nothing; the totals are those of what was loaded |
| Controller.ApprovalRequest | js/controller.js:775-797 | an update is requested iff there is a record id and the user confirms |
| Controller.HandleApproval | js/controller.js:775-806 | no request leaves the store unchanged; a request is the store's status update |
| StoreAgreement.SumsAgree | js/model.js:535-566 | lists that agree record by record on amount and status have the same totals |
| StoreAgreement.ReadersAgreeOnTotals | js/supabase-model.js:305-336 | the two readers of the database rows give the same four totals |
| StoreAgreement.CancellationAmountAgrees | js/model-localstorage.js:273-277 | a cancellation saved from the same data counts the same amount in all three stores |
| StoreAgreement.CorrectionAmountAgrees | js/model-localstorage.js:329-330 | a correction saved from the same data counts its BRL savings in all three stores |

## Left out

- Network and storage I/O are not modelled. This covers the PTAX HTTP fetch, database queries, inserts and updates, storage uploads and signed URLs. Each outcome is an input: `Inserted`, `UploadAttempt`, a storage answer per file, the fetched attachment rows, a `failed` flag.
- Server-side querying in `js/model.js` is not modelled: `getEconomias`, `getEconomiasByUser`, `getEconomiaById`, `updateEconomiaStatus` and `filterEconomias`. The database filters and orders those rows. `Controller.LoadEconomias` uses the local `Filtered` and `Select` as the reference for what the query returns.
- `_loadArquivos`, the one-record attachment load in `js/model.js`, is not modelled: the batch version is.
- Controller.LoadEconomias: the database returns rows newest first; the model keeps store order instead.
- Floating point is not modelled. Money is exact `real`, so `toFixed` rounding and NaN from `parseFloat` are absent. An unparsable number is an absent one.
- Dates are instants in milliseconds. The inclusive end of the last filtered day is the start of that day plus 86 399 999 ms, so the local time zone is taken as UTC.
- `generateId`, `new Date()`, `Date.now()` and `Math.random()` are parameters. A save's insert clock and its approval clock are the same `now`.
- The storage path of an upload, built from the user id, the record id, a timestamp and a random suffix, is an output of the storage backend.
- Model.UploadArquivos: the branch for a raw `File` object, with no data URL, is not modelled. The form always sends data URLs, so a file without one is skipped as it is when neither is present.
- `fileToBase64` is not modelled. A file's read outcome is the optional `dados` of the form input.
- Null text fields of a database row are read as the empty string.
- The sessions of `js/model.js` and `js/supabase-model.js` (`setCurrentUser`, `getCurrentUser`) are an `Option<Actor>` parameter. Sign-in through OAuth, redirects, `onAuthStateChange` and account deletion are not modelled.
- `handleDescontoToggle` also shows or hides the discount field and makes the corrected value read-only; only its effect on the two field values is modelled, as `DescontoToggle`.
- `js/view.js` and `js/supabase-config.js` are not part of this model. They render HTML and wrap the hosted client.
- The disabled submit button, asynchrony and concurrent approvals are not modelled: the model is sequential.
- Files uploaded by `js/supabase-model.js` before a failed insert stay in storage. The model reports the failure and does not track the stored files.
