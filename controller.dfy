/** The rules the page controller applies between the forms and the store:
    - the fail-fast validation of the two submission forms;
    - the USD to BRL conversions, with the premium ("ágio") applied;
    - the discount on a correction;
    - the date rewrite for the exchange-rate (PTAX) query;
    - which records a user loads;
    - the guards before a review is sent.
    Form fields, the confirmation dialog and every backend answer are inputs. */
module Controller {
  import opened Domain
  import opened Collections
  import opened Totals
  import opened LocalStorageModel

  /** JavaScript truthiness of a parsed number: missing, unparsable and 0 are false. */
  predicate Truthy(x: Option<real>)
  {
    x.Some? && x.value != 0.0
  }

  // ---------------------------------------------------------------------------
  // Date rewrite for the PTAX query

  /** `String.prototype.split` with a one-character separator: the pieces between
      separators, empty pieces included, and always at least one piece. */
  function Split(s: string, sep: char): (r: seq<string>)
    ensures |r| >= 1
    decreases |s|
  {
    if s == [] then [""]
    else
      var rest := Split(s[1..], sep);
      if s[0] == sep then [""] + rest
      else [[s[0]] + rest[0]] + rest[1..]
  }

  /** `Array.prototype.join` with a one-character separator. */
  function Join(parts: seq<string>, sep: char): string
    requires |parts| >= 1
    decreases |parts|
  {
    if |parts| == 1 then parts[0] else parts[0] + [sep] + Join(parts[1..], sep)
  }

  /** Joining the pieces gives back the string, and no piece holds the separator. */
  lemma {:induction false} SplitThenJoin(s: string, sep: char)
    ensures Join(Split(s, sep), sep) == s
    ensures forall k :: 0 <= k < |Split(s, sep)| ==> sep !in Split(s, sep)[k]
    decreases |s|
  {
    if s != [] {
      var rest := Split(s[1..], sep);
      SplitThenJoin(s[1..], sep);
      if s[0] == sep {
        assert Split(s, sep)[1..] == rest;
        assert s == [sep] + s[1..];
      } else {
        var r := Split(s, sep);
        if |rest| == 1 {
          assert s == [s[0]] + s[1..];
        } else {
          assert r[1..] == rest[1..];
          assert Join(rest, sep) == rest[0] + [sep] + Join(rest[1..], sep);
          assert s == [s[0]] + s[1..];
        }
        forall k | 0 <= k < |r|
          ensures sep !in r[k]
        {
          if k > 0 {
            assert r[k] == rest[k];
          }
        }
      }
    }
  }

  /** Splitting pieces joined around separator-free pieces gives the pieces back. */
  lemma {:induction false} JoinThenSplit(parts: seq<string>, sep: char)
    requires |parts| >= 1
    requires forall k :: 0 <= k < |parts| ==> sep !in parts[k]
    ensures Split(Join(parts, sep), sep) == parts
    decreases |parts|, |parts[0]|
  {
    var p := parts[0];
    if p == [] {
      if |parts| > 1 {
        JoinThenSplit(parts[1..], sep);
        assert Join(parts, sep) == [sep] + Join(parts[1..], sep);
        assert Join(parts, sep)[1..] == Join(parts[1..], sep);
        assert parts == [""] + parts[1..];
      }
    } else {
      var tail := [p[1..]] + parts[1..];
      assert forall k :: 0 <= k < |tail| ==> sep !in tail[k] by {
        forall k | 0 <= k < |tail|
          ensures sep !in tail[k]
        {
          if k == 0 {
            assert forall c :: c in p[1..] ==> c in p;
          } else {
            assert tail[k] == parts[k];
          }
        }
      }
      JoinThenSplit(tail, sep);
      var s := Join(parts, sep);
      if |parts| == 1 {
        assert s == [p[0]] + Join(tail, sep);
      } else {
        assert Join(tail, sep) == p[1..] + [sep] + Join(parts[1..], sep);
        assert s == [p[0]] + Join(tail, sep);
      }
      assert s[0] == p[0] && s[1..] == Join(tail, sep);
      assert p[0] != sep by { assert p[0] in parts[0]; }
      assert parts[0] == [p[0]] + p[1..];
      assert parts == [parts[0]] + parts[1..];
    }
  }

  /** A destructured piece of a split: JavaScript yields `undefined` for a piece
      that is not there, and the template literal prints it as such. */
  function Piece(parts: seq<string>, i: nat): string
  {
    if i < |parts| then parts[i] else "undefined"
  }

  /** `YYYY-MM-DD` rewritten as `MM-DD-YYYY` for the query. */
  function PtaxQueryDate(date: string): string
  {
    var parts := Split(date, '-');
    Piece(parts, 1) + "-" + Piece(parts, 2) + "-" + Piece(parts, 0)
  }

  /** For a date made of three dash-free pieces the query date moves the year to
      the end, and the original is recovered by moving it back. */
  lemma PtaxQueryDateReorders(year: string, month: string, day: string)
    requires '-' !in year && '-' !in month && '-' !in day
    ensures PtaxQueryDate(year + "-" + month + "-" + day) == month + "-" + day + "-" + year
    ensures var q := Split(PtaxQueryDate(year + "-" + month + "-" + day), '-');
            |q| == 3 && Join([q[2], q[0], q[1]], '-') == year + "-" + month + "-" + day
  {
    var parts := [year, month, day];
    assert Join(parts, '-') == year + "-" + month + "-" + day by {
      assert Join(parts[2..], '-') == day;
      assert Join(parts[1..], '-') == month + "-" + day;
    }
    JoinThenSplit(parts, '-');
    var out := [month, day, year];
    assert Join(out, '-') == month + "-" + day + "-" + year by {
      assert Join(out[2..], '-') == year;
      assert Join(out[1..], '-') == day + "-" + year;
    }
    JoinThenSplit(out, '-');
  }

  lemma PtaxQueryDateExample()
    ensures PtaxQueryDate("2024-03-15") == "03-15-2024"
  {
    assert "2024-03-15" == "2024" + "-" + "03" + "-" + "15";
    assert "03-15-2024" == "03" + "-" + "15" + "-" + "2024";
    PtaxQueryDateReorders("2024", "03", "15");
  }

  /** The rate service's answer: unreachable, or a body whose `value` list (when
      present) holds the day's quotes. */
  datatype PtaxResponse = Unreachable | Body(value: Option<seq<real>>)

  /** The sell rate of the first quote, or `None` (shown as an error) when the
      service fails or has no quote for that day. */
  function PtaxFromResponse(response: PtaxResponse): (r: Option<real>)
    ensures r.Some? <==> response.Body? && response.value.Some? && |response.value.value| > 0
    ensures r.Some? ==> r.value == response.value.value[0]
  {
    match response
    case Unreachable => None
    case Body(value) =>
      if value.Some? && |value.value| > 0 then Some(value.value[0]) else None
  }

  // ---------------------------------------------------------------------------
  // Conversions and discount

  /** One dollar with the premium applied, in reais. */
  function ConversionFactor(ptax: real, agio: real): (f: real)
    ensures agio == 0.0 ==> f == ptax
    ensures ptax > 0.0 && agio > -100.0 ==> f > 0.0
  {
    ptax * (1.0 + agio / 100.0)
  }

  /** The BRL amount shown for a USD cancellation: computed only when both the
      amount and the rate are non-zero; otherwise the field is left as it was. */
  function CancellationConversion(moeda: string, valorUSD: real, ptax: real, agio: real): (r: Option<real>)
    ensures r.Some? <==> moeda == USD && valorUSD != 0.0 && ptax != 0.0
    ensures r.Some? ==> r.value == valorUSD * ConversionFactor(ptax, agio)
  {
    if moeda == USD && valorUSD != 0.0 && ptax != 0.0 then
      Some(valorUSD * (1.0 + agio / 100.0) * ptax)
    else None
  }

  /** The conversion is positive for a positive amount, rate and premium above
      -100%, and dividing by the factor gives the dollar amount back. */
  lemma {:induction false} CancellationConversionInverse(valorUSD: real, ptax: real, agio: real)
    requires valorUSD > 0.0 && ptax > 0.0 && agio > -100.0
    ensures CancellationConversion(USD, valorUSD, ptax, agio).Some?
    ensures CancellationConversion(USD, valorUSD, ptax, agio).value > 0.0
    ensures CancellationConversion(USD, valorUSD, ptax, agio).value / ConversionFactor(ptax, agio) == valorUSD
  {
    var k := 1.0 + agio / 100.0;
    assert k > 0.0;
    var f := ConversionFactor(ptax, agio);
    assert f == ptax * k;
    assert f > 0.0;
    var r := valorUSD * k * ptax;
    assert r == valorUSD * f;
    assert r > 0.0;
  }

  lemma CancellationConversionExample()
    ensures CancellationConversion(USD, 1000.0, 5.0, 10.0) == Some(5500.0)
    ensures CancellationConversion(BRL, 1000.0, 5.0, 10.0) == None
    ensures CancellationConversion(USD, 1000.0, 0.0, 10.0) == None
  {
  }

  /** The two legs of a correction in reais: the same factor on both for USD,
      unchanged otherwise. */
  function CorrectionLegs(moeda: string, valorOriginal: real, valorCorrigido: real, ptax: real, agio: real)
    : (legs: (real, real))
    ensures moeda != USD ==> legs == (valorOriginal, valorCorrigido)
    ensures moeda == USD ==>
      legs.0 == valorOriginal * ConversionFactor(ptax, agio) && legs.1 == valorCorrigido * ConversionFactor(ptax, agio)
  {
    if moeda == USD then
      var fatorConversao := ConversionFactor(ptax, agio);
      (valorOriginal * fatorConversao, valorCorrigido * fatorConversao)
    else (valorOriginal, valorCorrigido)
  }

  /** The BRL savings are the raw savings times the factor, so a non-negative raw
      difference stays non-negative under a positive factor. */
  lemma CorrectionSavingsScale(moeda: string, valorOriginal: real, valorCorrigido: real, ptax: real, agio: real)
    ensures var legs := CorrectionLegs(moeda, valorOriginal, valorCorrigido, ptax, agio);
      legs.0 - legs.1 == (if moeda == USD then ConversionFactor(ptax, agio) else 1.0) * (valorOriginal - valorCorrigido)
    ensures moeda == USD && ptax > 0.0 && agio > -100.0 && valorOriginal >= valorCorrigido ==>
      var legs := CorrectionLegs(moeda, valorOriginal, valorCorrigido, ptax, agio);
      legs.0 - legs.1 >= 0.0
  {
    if moeda == USD {
      var f := ConversionFactor(ptax, agio);
      assert valorOriginal * f - valorCorrigido * f == f * (valorOriginal - valorCorrigido);
      if ptax > 0.0 && agio > -100.0 && valorOriginal >= valorCorrigido {
        assert 1.0 + agio / 100.0 > 0.0;
        assert f > 0.0;
      }
    }
  }

  /** The corrected value after a discount in percent: computed only for a
      positive original and a discount between 0 and 100; otherwise the field is
      left as it was. */
  function DiscountedValue(valorOriginal: real, desconto: real): (r: Option<real>)
    ensures r.Some? <==> valorOriginal > 0.0 && 0.0 <= desconto <= 100.0
    ensures r.Some? ==> 0.0 <= r.value <= valorOriginal
  {
    if valorOriginal > 0.0 && desconto >= 0.0 && desconto <= 100.0 then
      var k := 1.0 - desconto / 100.0;
      assert 0.0 <= k <= 1.0;
      assert valorOriginal * k <= valorOriginal * 1.0;
      Some(valorOriginal * k)
    else None
  }

  /** The discount can be read back from the corrected value, so the saved
      correction records exactly the discount given. */
  lemma {:induction false} DiscountRecoverable(valorOriginal: real, desconto: real)
    requires valorOriginal > 0.0 && 0.0 <= desconto <= 100.0
    ensures DiscountedValue(valorOriginal, desconto).Some?
    ensures (1.0 - DiscountedValue(valorOriginal, desconto).value / valorOriginal) * 100.0 == desconto
  {
    var k := 1.0 - desconto / 100.0;
    assert DiscountedValue(valorOriginal, desconto).value == valorOriginal * k;
    assert valorOriginal * k / valorOriginal == k;
  }

  lemma DiscountExamples()
    ensures DiscountedValue(200.0, 25.0) == Some(150.0)
    ensures DiscountedValue(200.0, 0.0) == Some(200.0)
    ensures DiscountedValue(200.0, 100.0) == Some(0.0)
    ensures DiscountedValue(200.0, 120.0) == None
    ensures DiscountedValue(0.0, 25.0) == None
  {
  }

  /** The corrected-value field after a change to the discount inputs. */
  function DescontoCalculation(useDesconto: bool, valorOriginal: real, desconto: real, valorCorrigido: real)
    : (r: real)
    ensures !useDesconto ==> r == valorCorrigido
    ensures useDesconto && DiscountedValue(valorOriginal, desconto).Some? ==>
      r == DiscountedValue(valorOriginal, desconto).value
    ensures useDesconto && DiscountedValue(valorOriginal, desconto).None? ==> r == valorCorrigido
  {
    if useDesconto then
      match DiscountedValue(valorOriginal, desconto)
      case Some(v) => v
      case None => valorCorrigido
    else valorCorrigido
  }

  /** The discount and corrected-value fields after the discount box is ticked
      or cleared: ticking it recalculates the corrected value; clearing it
      resets the discount to 0 and leaves the corrected value to the user. */
  function DescontoToggle(useDesconto: bool, valorOriginal: real, desconto: real, valorCorrigido: real)
    : (fields: (real, real))
    ensures !useDesconto ==> fields.0 == 0.0 && fields.1 == valorCorrigido
    ensures useDesconto ==> fields.0 == desconto
    ensures useDesconto && DiscountedValue(valorOriginal, desconto).Some? ==>
      fields.1 == DiscountedValue(valorOriginal, desconto).value
  {
    if useDesconto then (desconto, DescontoCalculation(true, valorOriginal, desconto, valorCorrigido))
    else (0.0, valorCorrigido)
  }

  /** Clearing the box and ticking it again starts from a 0% discount, so the
      corrected value becomes the original value. */
  lemma {:induction false} DescontoToggleOffThenOn(valorOriginal: real, desconto: real, valorCorrigido: real)
    requires valorOriginal > 0.0
    ensures var off := DescontoToggle(false, valorOriginal, desconto, valorCorrigido);
      DescontoToggle(true, valorOriginal, off.0, off.1).1 == valorOriginal
  {
    var off := DescontoToggle(false, valorOriginal, desconto, valorCorrigido);
    assert off.0 == 0.0;
    assert DiscountedValue(valorOriginal, 0.0) == Some(valorOriginal * (1.0 - 0.0 / 100.0));
  }

  // ---------------------------------------------------------------------------
  // Submission forms

  /** A chosen file: its name, MIME type, size in bytes, and its contents as a data
      URL, or `None` when reading it failed. */
  datatype FileInput = FileInput(name: string, mimeType: string, size: nat, dados: Option<string>)

  const ALLOWED_TYPES: seq<string> := ["application/pdf", "image/png", "image/jpeg", "image/jpg"]

  /** 5 MiB. */
  const MAX_FILE_SIZE: nat := 5 * 1024 * 1024

  datatype FormError =
    | MissingFields
    | PtaxPending            // USD chosen but no exchange rate yet
    | BRLConversionFailed    // USD cancellation without a positive BRL amount
    | NoFiles
    | InvalidType(name: string)
    | TooLarge(name: string)
    | ReadFailed(name: string)

  /** One file's checks, in the order the loop makes them: type, size, read. */
  function CheckFile(i: nat, f: FileInput): (r: Result<Arquivo, FormError>)
    ensures r.Success? <==> f.mimeType in ALLOWED_TYPES && f.size <= MAX_FILE_SIZE && f.dados.Some?
    ensures f.mimeType !in ALLOWED_TYPES ==> r == Failure(InvalidType(f.name))
    ensures f.mimeType in ALLOWED_TYPES && f.size > MAX_FILE_SIZE ==> r == Failure(TooLarge(f.name))
    ensures r.Success? ==> r.value == Arquivo("", f.name, f.mimeType, "", "", f.dados.value)
  {
    if f.mimeType !in ALLOWED_TYPES then Failure(InvalidType(f.name))
    else if f.size > MAX_FILE_SIZE then Failure(TooLarge(f.name))
    else if f.dados.None? then Failure(ReadFailed(f.name))
    else Success(Arquivo("", f.name, f.mimeType, "", "", f.dados.value))
  }

  /** Check and read the chosen files in turn, stopping at the first problem. */
  method CollectFiles(files: seq<FileInput>) returns (r: Result<seq<Arquivo>, FormError>)
    ensures r == Collect(files, CheckFile)
  {
    var arquivos := [];
    for i := 0 to |files|
      invariant Collect(files[..i], CheckFile) == Success(arquivos)
    {
      var arquivo := files[i];
      assert files[..i + 1][..i] == files[..i];
      if arquivo.mimeType !in ALLOWED_TYPES {
        CollectPrefixFailure(files, i + 1, CheckFile);
        return Failure(InvalidType(arquivo.name));
      }
      if arquivo.size > MAX_FILE_SIZE {
        CollectPrefixFailure(files, i + 1, CheckFile);
        return Failure(TooLarge(arquivo.name));
      }
      if arquivo.dados.None? {
        CollectPrefixFailure(files, i + 1, CheckFile);
        return Failure(ReadFailed(arquivo.name));
      }
      arquivos := arquivos + [Arquivo("", arquivo.name, arquivo.mimeType, "", "", arquivo.dados.value)];
    }
    assert files[..|files|] == files;
    r := Success(arquivos);
  }

  /** Every file passes, and then each becomes an attachment with its own name,
      type and contents, in order. */
  lemma {:induction false} FilesAcceptedIff(files: seq<FileInput>)
    ensures Collect(files, CheckFile).Success? <==>
      forall j :: 0 <= j < |files| ==>
        files[j].mimeType in ALLOWED_TYPES && files[j].size <= MAX_FILE_SIZE && files[j].dados.Some?
    ensures Collect(files, CheckFile).Success? ==>
      |Collect(files, CheckFile).value| == |files|
      && forall j :: 0 <= j < |files| ==>
           Collect(files, CheckFile).value[j] == Arquivo("", files[j].name, files[j].mimeType, "", "", files[j].dados.value)
  {
    CollectSucceeds(files, CheckFile);
  }

  /** The cancellation form as submitted. Amounts are parsed numbers (`None` when
      empty or unparsable); the premium has already fallen back to 0. */
  datatype CancelamentoForm = CancelamentoForm(
    codigoFornecedor: string,
    data: string,
    moeda: string,
    agio: real,
    valorCancelado: Option<real>,
    tipo: string,
    descricao: string,
    ptax: Option<real>,
    valorBRL: Option<real>,
    files: seq<FileInput>)

  predicate CancelamentoRequired(form: CancelamentoForm)
  {
    form.codigoFornecedor != "" && form.data != "" && Truthy(form.valorCancelado) && form.tipo != ""
  }

  /** A USD cancellation has its rate and a positive BRL amount; any other
      currency needs neither. */
  predicate CancelamentoAmountsReady(form: CancelamentoForm)
  {
    form.moeda == USD ==> Truthy(form.ptax) && Truthy(form.valorBRL) && form.valorBRL.value > 0.0
  }

  /** The rate and BRL amount sent for a cancellation, or why they are refused. */
  function CancelamentoAmounts(form: CancelamentoForm): (r: Result<(Option<real>, real), FormError>)
    requires CancelamentoRequired(form)
    ensures r.Success? <==> CancelamentoAmountsReady(form)
    ensures form.moeda != USD ==> r == Success((None, form.valorCancelado.value))
    ensures form.moeda == USD && !Truthy(form.ptax) ==> r == Failure(PtaxPending)
    ensures form.moeda == USD && Truthy(form.ptax) && !CancelamentoAmountsReady(form) ==>
      r == Failure(BRLConversionFailed)
    ensures r.Success? && form.moeda == USD ==>
      Truthy(form.ptax) && r.value.0 == form.ptax && Truthy(form.valorBRL)
      && r.value.1 == form.valorBRL.value > 0.0
  {
    if form.moeda == USD then
      if !Truthy(form.ptax) then Failure(PtaxPending)
      else if !Truthy(form.valorBRL) || form.valorBRL.value <= 0.0 then Failure(BRLConversionFailed)
      else Success((form.ptax, form.valorBRL.value))
    else Success((None, form.valorCancelado.value))
  }

  /** What the cancellation form sends to the store, or the first problem found:
      required fields, then the rate and BRL amount for USD, then at least one
      file, then each file in turn. */
  function CancelamentoSubmission(form: CancelamentoForm): (r: Result<EconomiaData, FormError>)
    ensures !CancelamentoRequired(form) ==> r == Failure(MissingFields)
    ensures CancelamentoRequired(form) && form.moeda == USD && !Truthy(form.ptax) ==> r == Failure(PtaxPending)
    ensures CancelamentoRequired(form) && form.moeda == USD && Truthy(form.ptax) && !CancelamentoAmountsReady(form) ==>
      r == Failure(BRLConversionFailed)
    ensures CancelamentoRequired(form) && CancelamentoAmountsReady(form) && form.files == [] ==>
      r == Failure(NoFiles)
  {
    if !CancelamentoRequired(form) then Failure(MissingFields)
    else
      match CancelamentoAmounts(form)
      case Failure(e) => Failure(e)
      case Success(amounts) =>
        if form.files == [] then Failure(NoFiles)
        else
          match Collect(form.files, CheckFile)
          case Failure(e) => Failure(e)
          case Success(arquivos) =>
            Success(EconomiaData(
              codigoFornecedor := form.codigoFornecedor, data := form.data, moeda := form.moeda,
              ptax := amounts.0, agio := form.agio,
              valorCancelado := form.valorCancelado.value, valorBRL := amounts.1,
              valorOriginal := 0.0, valorCorrigido := 0.0,
              valorOriginalBRL := 0.0, valorCorrigidoBRL := 0.0,
              tipo := form.tipo, descricao := form.descricao, arquivos := arquivos))
  }

  /** The cancellation form is sent exactly when every check passes, and then
      carries the form's values, the BRL amount (the cancelled amount itself
      unless USD) and one attachment per file. */
  lemma {:induction false} CancelamentoAcceptedIff(form: CancelamentoForm)
    ensures CancelamentoSubmission(form).Success? <==>
      && CancelamentoRequired(form)
      && CancelamentoAmountsReady(form)
      && |form.files| > 0
      && forall j :: 0 <= j < |form.files| ==> CheckFile(j, form.files[j]).Success?
    ensures CancelamentoSubmission(form).Success? ==>
      var d := CancelamentoSubmission(form).value;
      && d.codigoFornecedor == form.codigoFornecedor && d.tipo == form.tipo
      && d.valorCancelado == form.valorCancelado.value != 0.0
      && d.valorBRL == (if form.moeda == USD then form.valorBRL.value else form.valorCancelado.value)
      && d.data == form.data && d.moeda == form.moeda && d.agio == form.agio && d.descricao == form.descricao
      && d.ptax == (if form.moeda == USD then form.ptax else None)
      && d.valorOriginal == 0.0 && d.valorCorrigido == 0.0
      && d.valorOriginalBRL == 0.0 && d.valorCorrigidoBRL == 0.0
      && |d.arquivos| == |form.files|
      && forall j :: 0 <= j < |form.files| ==>
           d.arquivos[j] == Arquivo("", form.files[j].name, form.files[j].mimeType, "", "", form.files[j].dados.value)
  {
    CollectSucceeds(form.files, CheckFile);
  }

  /** A file problem is reported for the first file that has one. */
  lemma {:induction false} FirstBadFileReported(form: CancelamentoForm) returns (i: nat)
    requires CancelamentoRequired(form) && CancelamentoAmountsReady(form) && |form.files| > 0
    requires exists j :: 0 <= j < |form.files| && CheckFile(j, form.files[j]).Failure?
    ensures i < |form.files| && CheckFile(i, form.files[i]).Failure?
    ensures forall j :: 0 <= j < i ==> CheckFile(j, form.files[j]).Success?
    ensures CancelamentoSubmission(form) == Failure(CheckFile(i, form.files[i]).error)
  {
    CollectSucceeds(form.files, CheckFile);
    i := CollectFirstFailure(form.files, CheckFile);
  }

  /** When the BRL field holds the conversion shown for the form, the amount sent
      is the dollar amount with premium at the day's rate. */
  lemma CancelamentoSendsConversion(form: CancelamentoForm)
    requires form.moeda == USD && Truthy(form.ptax) && Truthy(form.valorCancelado)
    requires form.valorBRL == CancellationConversion(USD, form.valorCancelado.value, form.ptax.value, form.agio)
    requires CancelamentoSubmission(form).Success?
    ensures CancelamentoSubmission(form).value.valorBRL
            == form.valorCancelado.value * ConversionFactor(form.ptax.value, form.agio)
  {
  }

  /** Check the cancellation form the way the submit handler does, returning at
      the first problem. */
  method HandleCancelamentoSubmit(form: CancelamentoForm) returns (r: Result<EconomiaData, FormError>)
    ensures r == CancelamentoSubmission(form)
  {
    if form.codigoFornecedor == "" || form.data == "" || !Truthy(form.valorCancelado) || form.tipo == "" {
      return Failure(MissingFields);
    }
    var ptax: Option<real> := None;
    var valorBRL := form.valorCancelado.value;
    if form.moeda == USD {
      ptax := form.ptax;
      if !Truthy(ptax) {
        return Failure(PtaxPending);
      }
      if !Truthy(form.valorBRL) || form.valorBRL.value <= 0.0 {
        return Failure(BRLConversionFailed);
      }
      valorBRL := form.valorBRL.value;
    }
    if |form.files| == 0 {
      return Failure(NoFiles);
    }
    var arquivos := CollectFiles(form.files);
    if arquivos.Failure? {
      return Failure(arquivos.error);
    }
    r := Success(EconomiaData(
      codigoFornecedor := form.codigoFornecedor, data := form.data, moeda := form.moeda,
      ptax := ptax, agio := form.agio,
      valorCancelado := form.valorCancelado.value, valorBRL := valorBRL,
      valorOriginal := 0.0, valorCorrigido := 0.0,
      valorOriginalBRL := 0.0, valorCorrigidoBRL := 0.0,
      tipo := form.tipo, descricao := form.descricao, arquivos := arquivos.value));
  }

  /** The correction form as submitted. */
  datatype CorrecaoForm = CorrecaoForm(
    codigoFornecedor: string,
    data: string,
    moeda: string,
    agio: real,
    valorOriginal: Option<real>,
    valorCorrigido: Option<real>,
    tipo: string,
    descricao: string,
    ptax: Option<real>,
    files: seq<FileInput>)

  predicate CorrecaoRequired(form: CorrecaoForm)
  {
    && form.codigoFornecedor != "" && form.data != ""
    && Truthy(form.valorOriginal) && Truthy(form.valorCorrigido) && form.tipo != ""
  }

  /** What the correction form sends to the store, or the first problem found:
      required fields, then the rate for USD, then at least one file, then each
      file in turn. */
  function CorrecaoSubmission(form: CorrecaoForm): (r: Result<EconomiaData, FormError>)
    ensures !CorrecaoRequired(form) ==> r == Failure(MissingFields)
    ensures CorrecaoRequired(form) && form.moeda == USD && !Truthy(form.ptax) ==> r == Failure(PtaxPending)
    ensures CorrecaoRequired(form) && (form.moeda == USD ==> Truthy(form.ptax)) && form.files == [] ==>
      r == Failure(NoFiles)
  {
    if !CorrecaoRequired(form) then Failure(MissingFields)
    else if form.moeda == USD && !Truthy(form.ptax) then Failure(PtaxPending)
    else if form.files == [] then Failure(NoFiles)
    else
      match Collect(form.files, CheckFile)
      case Failure(e) => Failure(e)
      case Success(arquivos) =>
        var legs := CorrectionLegs(form.moeda, form.valorOriginal.value, form.valorCorrigido.value,
                                   if form.moeda == USD then form.ptax.value else 0.0, form.agio);
        Success(EconomiaData(
          codigoFornecedor := form.codigoFornecedor, data := form.data, moeda := form.moeda,
          ptax := if form.moeda == USD then form.ptax else None, agio := form.agio,
          valorCancelado := 0.0, valorBRL := 0.0,
          valorOriginal := form.valorOriginal.value, valorCorrigido := form.valorCorrigido.value,
          valorOriginalBRL := legs.0, valorCorrigidoBRL := legs.1,
          tipo := form.tipo, descricao := form.descricao, arquivos := arquivos))
  }

  /** The correction form is sent exactly when every check passes, and then its
      BRL savings are the raw savings times the conversion factor (1 unless USD). */
  lemma {:induction false} CorrecaoAcceptedIff(form: CorrecaoForm)
    ensures CorrecaoSubmission(form).Success? <==>
      && CorrecaoRequired(form)
      && (form.moeda == USD ==> Truthy(form.ptax))
      && |form.files| > 0
      && forall j :: 0 <= j < |form.files| ==> CheckFile(j, form.files[j]).Success?
    ensures CorrecaoSubmission(form).Success? ==>
      var d := CorrecaoSubmission(form).value;
      && d.codigoFornecedor == form.codigoFornecedor && d.tipo == form.tipo
      && d.data == form.data && d.moeda == form.moeda && d.agio == form.agio && d.descricao == form.descricao
      && d.ptax == (if form.moeda == USD then form.ptax else None)
      && d.valorCancelado == 0.0 && d.valorBRL == 0.0
      && d.valorOriginal == form.valorOriginal.value && d.valorCorrigido == form.valorCorrigido.value
      && d.valorOriginalBRL
         == (if form.moeda == USD then d.valorOriginal * ConversionFactor(form.ptax.value, form.agio)
             else d.valorOriginal)
      && d.valorCorrigidoBRL
         == (if form.moeda == USD then d.valorCorrigido * ConversionFactor(form.ptax.value, form.agio)
             else d.valorCorrigido)
      && d.valorOriginalBRL - d.valorCorrigidoBRL
         == (if form.moeda == USD then ConversionFactor(form.ptax.value, form.agio) else 1.0)
            * (d.valorOriginal - d.valorCorrigido)
      && |d.arquivos| == |form.files|
      && forall j :: 0 <= j < |form.files| ==>
           d.arquivos[j] == Arquivo("", form.files[j].name, form.files[j].mimeType, "", "", form.files[j].dados.value)
  {
    CollectSucceeds(form.files, CheckFile);
    if CorrecaoSubmission(form).Success? {
      CorrectionSavingsScale(form.moeda, form.valorOriginal.value, form.valorCorrigido.value,
                             if form.moeda == USD then form.ptax.value else 0.0, form.agio);
    }
  }

  /** A file problem in a correction is reported for the first file that has one. */
  lemma {:induction false} CorrecaoFirstBadFileReported(form: CorrecaoForm) returns (i: nat)
    requires CorrecaoRequired(form) && (form.moeda == USD ==> Truthy(form.ptax)) && |form.files| > 0
    requires exists j :: 0 <= j < |form.files| && CheckFile(j, form.files[j]).Failure?
    ensures i < |form.files| && CheckFile(i, form.files[i]).Failure?
    ensures forall j :: 0 <= j < i ==> CheckFile(j, form.files[j]).Success?
    ensures CorrecaoSubmission(form) == Failure(CheckFile(i, form.files[i]).error)
  {
    CollectSucceeds(form.files, CheckFile);
    i := CollectFirstFailure(form.files, CheckFile);
  }

  /** The required-field check is a truthiness test, so a corrected value of 0 (a
      100% discount, say) is refused as missing. */
  lemma FullDiscountRefusedAsMissing(form: CorrecaoForm)
    requires form.valorOriginal.Some? && form.valorOriginal.value > 0.0
    requires form.valorCorrigido == DiscountedValue(form.valorOriginal.value, 100.0)
    ensures form.valorCorrigido == Some(0.0)
    ensures CorrecaoSubmission(form) == Failure(MissingFields)
  {
  }

  /** A correction sent from the form in dollars at a positive rate, with a
      premium above -100% and no negative raw savings, is accepted by the local
      store with non-negative savings in reais. */
  lemma {:induction false} FormCorrectionStoresNonNegativeSavings(
    form: CorrecaoForm, session: Session, id: string, now: Instant)
    requires CorrecaoSubmission(form).Success?
    requires form.valorOriginal.value >= form.valorCorrigido.value
    requires form.moeda == USD ==> form.ptax.value > 0.0 && form.agio > -100.0
    ensures NewCorrecao(Some(session), CorrecaoSubmission(form).value, id, now).Success?
    ensures NewCorrecao(Some(session), CorrecaoSubmission(form).value, id, now).value.valorEconomia >= 0.0
  {
    CorrectionSavingsScale(form.moeda, form.valorOriginal.value, form.valorCorrigido.value,
                           if form.moeda == USD then form.ptax.value else 0.0, form.agio);
  }

  /** Check the correction form the way the submit handler does. */
  method HandleCorrecaoSubmit(form: CorrecaoForm) returns (r: Result<EconomiaData, FormError>)
    ensures r == CorrecaoSubmission(form)
  {
    if form.codigoFornecedor == "" || form.data == "" || !Truthy(form.valorOriginal)
       || !Truthy(form.valorCorrigido) || form.tipo == "" {
      return Failure(MissingFields);
    }
    var valorOriginal := form.valorOriginal.value;
    var valorCorrigido := form.valorCorrigido.value;
    var ptax: Option<real> := None;
    var valorOriginalBRL := valorOriginal;
    var valorCorrigidoBRL := valorCorrigido;
    if form.moeda == USD {
      ptax := form.ptax;
      if !Truthy(ptax) {
        return Failure(PtaxPending);
      }
      var fatorConversao := ptax.value * (1.0 + form.agio / 100.0);
      valorOriginalBRL := valorOriginal * fatorConversao;
      valorCorrigidoBRL := valorCorrigido * fatorConversao;
      assert CorrectionLegs(form.moeda, valorOriginal, valorCorrigido, ptax.value, form.agio).0 == valorOriginalBRL;
      assert CorrectionLegs(form.moeda, valorOriginal, valorCorrigido, ptax.value, form.agio).1 == valorCorrigidoBRL;
    }
    if |form.files| == 0 {
      return Failure(NoFiles);
    }
    var arquivos := CollectFiles(form.files);
    if arquivos.Failure? {
      return Failure(arquivos.error);
    }
    r := Success(EconomiaData(
      codigoFornecedor := form.codigoFornecedor, data := form.data, moeda := form.moeda,
      ptax := ptax, agio := form.agio,
      valorCancelado := 0.0, valorBRL := 0.0,
      valorOriginal := valorOriginal, valorCorrigido := valorCorrigido,
      valorOriginalBRL := valorOriginalBRL, valorCorrigidoBRL := valorCorrigidoBRL,
      tipo := form.tipo, descricao := form.descricao, arquivos := arquivos.value));
  }

  // ---------------------------------------------------------------------------
  // Loading and review

  /** Load the records the signed-in user may see and their totals: a manager
      gets the whole store, or the filtered store when the filter form was used;
      anyone else gets their own records. A failed load shows nothing. */
  method LoadEconomias(user: Actor, filters: Option<Filters>, store: seq<Economia>, failed: bool)
    returns (economias: seq<Economia>, totals: Totals)
    ensures failed ==> economias == []
    ensures !failed && user.role != GESTOR ==> economias == Select(store, UserIs(user.id))
    ensures !failed && user.role != GESTOR ==>
      (forall e :: e in economias <==> e in store && e.userId == user.id)
      && (forall e :: multiset(economias)[e] == if e.userId == user.id then multiset(store)[e] else 0)
      && IsSubsequence(economias, store)
    ensures !failed && user.role == GESTOR && filters.None? ==> economias == store
    ensures !failed && user.role == GESTOR && filters.Some? ==> economias == Filtered(store, filters.value)
    ensures !failed && user.role == GESTOR && filters.Some? ==>
      (forall e :: e in economias <==> e in store && Matches(filters.value, e))
      && (forall e :: multiset(economias)[e] == if Matches(filters.value, e) then multiset(store)[e] else 0)
      && IsSubsequence(economias, store)
    ensures totals.totalEconomizado == Sum(economias, Counted)
    ensures totals.totalAprovado == Sum(economias, WithStatus(APROVADO))
    ensures totals.totalPendente == Sum(economias, WithStatus(PENDENTE))
    ensures totals.totalReprovado == Sum(economias, WithStatus(REPROVADO))
  {
    if failed {
      economias := [];
    } else if user.role == GESTOR {
      if filters.Some? {
        economias := Filtered(store, filters.value);
        FilteredMeaning(store, filters.value);
      } else {
        economias := store;
      }
    } else {
      economias := Select(store, UserIs(user.id));
      SelectMeaning(store, UserIs(user.id));
    }
    totals := CalculateTotals(economias);
  }

  /** A review the manager asked for: sent only with a record id and after the
      manager confirms; the confirmation is not asked without an id. */
  datatype ReviewRequest = ReviewRequest(economiaId: string, status: string, observacoes: string)

  function ApprovalRequest(economiaId: string, status: string, observacoes: string, confirmed: bool)
    : (r: Option<ReviewRequest>)
    ensures r.Some? <==> economiaId != "" && confirmed
    ensures r.Some? ==> r.value == ReviewRequest(economiaId, status, observacoes)
  {
    if economiaId == "" then None
    else if !confirmed then None
    else Some(ReviewRequest(economiaId, status, observacoes))
  }

  /** The approval handler against the local store: no request leaves the store
      as it was; a request is the store's status update. */
  method HandleApproval(store: LocalStore, economiaId: string, status: string, observacoes: string,
                        confirmed: bool, now: Instant)
    returns (r: Option<Result<Economia, StoreError>>)
    modifies store`economias
    ensures r.Some? <==> economiaId != "" && confirmed
    ensures r.None? ==> store.economias == old(store.economias)
    ensures r.Some? ==>
      var expected := StatusUpdated(old(store.economias), economiaId, StatusUpdate(status, observacoes, now));
      (r.value.Success? <==> expected.Some?)
      && (expected.Some? ==> store.economias == expected.value)
      && (expected.None? ==> store.economias == old(store.economias))
  {
    var request := ApprovalRequest(economiaId, status, observacoes, confirmed);
    if request.None? {
      return None;
    }
    var result := store.UpdateEconomiaStatus(economiaId, status, observacoes, now);
    r := Some(result);
  }
}
