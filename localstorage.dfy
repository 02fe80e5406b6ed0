/** The browser-local savings store: a list of user accounts, the list of savings
    records and the current session, each of which the source keeps as one
    serialized item and rewrites whole on every change. Here the three items are
    fields of `LocalStore`; ids and clock readings are parameters. */
module LocalStorageModel {
  import opened Domain
  import opened Collections

  datatype User = User(id: string, username: string, password: string, name: string, role: string)

  datatype Session = Session(id: string, username: string, name: string, role: string, loginTime: Instant)

  datatype StoreError =
    | NotAuthenticated      // no current session
    | NegativeSavings       // original minus corrected below zero
    | NonPositiveCancelled  // cancelled amount not above zero
    | NotFound              // no record with the given id
    | WrongCredentials      // no account with that username and password

  /** The two accounts the system is seeded with. */
  function DefaultUsers(): seq<User>
  {
    [ User("1", "auditor", "123456", "João Auditor", AUDITOR),
      User("2", "gestor", "123456", "Maria Gestora", GESTOR) ]
  }

  predicate HasCredentials(u: User, username: string, password: string)
  {
    u.username == username && u.password == password
  }

  /** Position of the first account with these credentials (`Array.find`). */
  function FindUser(users: seq<User>, username: string, password: string): (r: Option<nat>)
    ensures r.Some? ==> r.value < |users| && HasCredentials(users[r.value], username, password)
    ensures r.Some? ==> forall j :: 0 <= j < r.value ==> !HasCredentials(users[j], username, password)
    ensures r.None? ==> forall j :: 0 <= j < |users| ==> !HasCredentials(users[j], username, password)
    decreases |users|
  {
    if users == [] then None
    else if HasCredentials(users[0], username, password) then Some(0)
    else
      match FindUser(users[1..], username, password)
      case None => None
      case Some(k) => Some(k + 1)
  }

  function SessionFor(u: User, loginTime: Instant): Session
  {
    Session(u.id, u.username, u.name, u.role, loginTime)
  }

  /** Position of the first record with this id (`Array.findIndex`). */
  function IndexOfId(s: seq<Economia>, id: string): (r: Option<nat>)
    ensures r.Some? ==> r.value < |s| && s[r.value].id == id
    ensures r.Some? ==> forall j :: 0 <= j < r.value ==> s[j].id != id
    ensures r.None? ==> forall j :: 0 <= j < |s| ==> s[j].id != id
    decreases |s|
  {
    if s == [] then None
    else if s[0].id == id then Some(0)
    else
      match IndexOfId(s[1..], id)
      case None => None
      case Some(k) => Some(k + 1)
  }

  /** The fields every new record takes from the session, the form and the clock. */
  ghost predicate Stamped(e: Economia, session: Session, d: EconomiaData, id: string, now: Instant)
  {
    && e.id == id && e.userId == session.id && e.userName == session.name
    && e.codigoFornecedor == d.codigoFornecedor && e.tipo == d.tipo
    && e.descricao == d.descricao && e.arquivos == d.arquivos
    && e.dataCriacao == now && e.observacoes == ""
    && BidRule(d.tipo, e.status, e.dataAprovacao, now)
  }

  /** The record the legacy save would append, or why it refuses. */
  function NewEconomia(session: Option<Session>, d: EconomiaData, id: string, now: Instant)
    : (r: Result<Economia, StoreError>)
    ensures session.None? ==> r == Failure(NotAuthenticated)
    ensures session.Some? && d.valorOriginal - d.valorCorrigido < 0.0 ==> r == Failure(NegativeSavings)
    ensures r.Success? <==> session.Some? && d.valorOriginal >= d.valorCorrigido
    ensures r.Success? ==> Stamped(r.value, session.value, d, id, now)
    ensures r.Success? ==> r.value.valorOriginal == d.valorOriginal && r.value.valorCorrigido == d.valorCorrigido
    ensures r.Success? ==> r.value.valorEconomia == d.valorOriginal - d.valorCorrigido >= 0.0
  {
    match session
    case None => Failure(NotAuthenticated)
    case Some(s) =>
      var valorEconomia := d.valorOriginal - d.valorCorrigido;
      if valorEconomia < 0.0 then Failure(NegativeSavings)
      else
        Success(Economia(
          id := id, userId := s.id, userName := s.name, tipoEconomia := "",
          codigoFornecedor := d.codigoFornecedor, data := "", moeda := "", ptax := None, agio := 0.0,
          valorCancelado := 0.0, valorBRL := 0.0,
          valorOriginal := d.valorOriginal, valorCorrigido := d.valorCorrigido,
          valorOriginalBRL := 0.0, valorCorrigidoBRL := 0.0,
          valorEconomia := valorEconomia, valorEconomiaBRL := 0.0,
          tipo := d.tipo, descricao := d.descricao, arquivos := d.arquivos,
          status := InitialStatus(d.tipo), dataCriacao := now,
          dataAprovacao := InitialApproval(d.tipo, now), observacoes := ""))
  }

  /** The cancellation record the store would append, or why it refuses. */
  function NewCancelamento(session: Option<Session>, d: EconomiaData, id: string, now: Instant)
    : (r: Result<Economia, StoreError>)
    ensures session.None? ==> r == Failure(NotAuthenticated)
    ensures session.Some? && d.valorCancelado <= 0.0 ==> r == Failure(NonPositiveCancelled)
    ensures r.Success? <==> session.Some? && d.valorCancelado > 0.0
    ensures r.Success? ==> Stamped(r.value, session.value, d, id, now)
    ensures r.Success? ==> r.value.tipoEconomia == CANCELAMENTO
    ensures r.Success? ==> r.value.valorCancelado == d.valorCancelado > 0.0
    ensures r.Success? ==> r.value.valorEconomia == r.value.valorBRL == d.valorBRL
    ensures r.Success? ==> r.value.valorOriginal == 0.0 && r.value.valorCorrigido == 0.0
    ensures r.Success? ==> r.value.moeda == MoedaOrBRL(d.moeda) && r.value.ptax == NonZero(d.ptax)
    ensures r.Success? ==> r.value.data == d.data && r.value.agio == d.agio
  {
    match session
    case None => Failure(NotAuthenticated)
    case Some(s) =>
      if d.valorCancelado <= 0.0 then Failure(NonPositiveCancelled)
      else
        Success(Economia(
          id := id, userId := s.id, userName := s.name, tipoEconomia := CANCELAMENTO,
          codigoFornecedor := d.codigoFornecedor, data := d.data, moeda := MoedaOrBRL(d.moeda),
          ptax := NonZero(d.ptax), agio := d.agio,
          valorCancelado := d.valorCancelado, valorBRL := d.valorBRL,
          valorOriginal := 0.0, valorCorrigido := 0.0,
          valorOriginalBRL := 0.0, valorCorrigidoBRL := 0.0,
          valorEconomia := d.valorBRL, valorEconomiaBRL := 0.0,
          tipo := d.tipo, descricao := d.descricao, arquivos := d.arquivos,
          status := InitialStatus(d.tipo), dataCriacao := now,
          dataAprovacao := InitialApproval(d.tipo, now), observacoes := ""))
  }

  /** The correction record the store would append, or why it refuses. The sign
      check is on the unconverted difference; the stored savings are the BRL one. */
  function NewCorrecao(session: Option<Session>, d: EconomiaData, id: string, now: Instant)
    : (r: Result<Economia, StoreError>)
    ensures session.None? ==> r == Failure(NotAuthenticated)
    ensures session.Some? && d.valorOriginal - d.valorCorrigido < 0.0 ==> r == Failure(NegativeSavings)
    ensures r.Success? <==> session.Some? && d.valorOriginal >= d.valorCorrigido
    ensures r.Success? ==> Stamped(r.value, session.value, d, id, now)
    ensures r.Success? ==> r.value.tipoEconomia == CORRECAO && r.value.valorCancelado == 0.0
    ensures r.Success? ==> r.value.valorOriginal == d.valorOriginal && r.value.valorCorrigido == d.valorCorrigido
    ensures r.Success? ==> r.value.valorEconomia == r.value.valorEconomiaBRL
                            == d.valorOriginalBRL - d.valorCorrigidoBRL
    ensures r.Success? ==> r.value.moeda == MoedaOrBRL(d.moeda) && r.value.ptax == NonZero(d.ptax)
    ensures r.Success? ==> r.value.data == d.data && r.value.agio == d.agio
    ensures r.Success? ==> r.value.valorOriginalBRL == d.valorOriginalBRL
                           && r.value.valorCorrigidoBRL == d.valorCorrigidoBRL
  {
    match session
    case None => Failure(NotAuthenticated)
    case Some(s) =>
      var valorEconomia := d.valorOriginal - d.valorCorrigido;
      var valorEconomiaBRL := d.valorOriginalBRL - d.valorCorrigidoBRL;
      if valorEconomia < 0.0 then Failure(NegativeSavings)
      else
        Success(Economia(
          id := id, userId := s.id, userName := s.name, tipoEconomia := CORRECAO,
          codigoFornecedor := d.codigoFornecedor, data := d.data, moeda := MoedaOrBRL(d.moeda),
          ptax := NonZero(d.ptax), agio := d.agio,
          valorCancelado := 0.0, valorBRL := 0.0,
          valorOriginal := d.valorOriginal, valorCorrigido := d.valorCorrigido,
          valorOriginalBRL := d.valorOriginalBRL, valorCorrigidoBRL := d.valorCorrigidoBRL,
          valorEconomia := valorEconomiaBRL, valorEconomiaBRL := valorEconomiaBRL,
          tipo := d.tipo, descricao := d.descricao, arquivos := d.arquivos,
          status := InitialStatus(d.tipo), dataCriacao := now,
          dataAprovacao := InitialApproval(d.tipo, now), observacoes := ""))
  }

  /** The list after a review of record `id`, or `None` when no record has it.
      Only the first record with the id changes, and only in its review fields. */
  function StatusUpdated(s: seq<Economia>, id: string, u: StatusUpdate): (r: Option<seq<Economia>>)
    ensures r.None? <==> forall j :: 0 <= j < |s| ==> s[j].id != id
    ensures r.Some? ==> |r.value| == |s|
    ensures r.Some? ==> exists i :: 0 <= i < |s| && s[i].id == id
                           && (forall j :: 0 <= j < i ==> s[j].id != id)
                           && r.value[i] == ApplyReview(s[i], u)
                           && (forall j :: 0 <= j < |s| && j != i ==> r.value[j] == s[j])
  {
    match IndexOfId(s, id)
    case None => None
    case Some(i) => Some(s[i := ApplyReview(s[i], u)])
  }

  /** Two reviews of the same record: the second one wins, whatever the first set. */
  lemma UpdateTwiceLastWins(s: seq<Economia>, id: string, u1: StatusUpdate, u2: StatusUpdate)
    requires StatusUpdated(s, id, u1).Some?
    ensures StatusUpdated(StatusUpdated(s, id, u1).value, id, u2) == StatusUpdated(s, id, u2)
  {
    var i := IndexOfId(s, id).value;
    var s1 := StatusUpdated(s, id, u1).value;
    assert s1 == s[i := ApplyReview(s[i], u1)];
    assert forall j :: 0 <= j < |s| ==> s1[j].id == s[j].id;
    assert IndexOfId(s1, id) == Some(i);
    ReviewLastWins(s[i], u1, u2);
    assert s1[i := ApplyReview(s1[i], u2)] == s[i := ApplyReview(s[i], u2)];
  }

  /** One condition of the manager's filter form. */
  datatype Criterion =
    | UserIs(userId: string)
    | TipoIs(tipo: string)
    | StatusIs(status: string)
    | CreatedFrom(start: Instant)
    | CreatedUntil(day: Instant)

  /** From the start of a day to 23:59:59.999 of that day. */
  const END_OF_DAY_MS: int := 86_399_999

  /** `e` meets `c`; an end date includes the whole of that day. */
  predicate Holds(c: Criterion, e: Economia): (b: bool)
    ensures c.CreatedUntil? ==> (b <==> e.dataCriacao < c.day + 86_400_000)
  {
    match c
    case UserIs(u) => e.userId == u
    case TipoIs(t) => e.tipo == t
    case StatusIs(st) => e.status == st
    case CreatedFrom(start) => e.dataCriacao >= start
    case CreatedUntil(day) => e.dataCriacao <= day + END_OF_DAY_MS
  }

  function Selector(c: Criterion): (nat, Economia) -> Option<Economia>
  {
    (i: nat, e: Economia) => if Holds(c, e) then Some(e) else None
  }

  /** `Array.filter` with one criterion. */
  function Select(s: seq<Economia>, c: Criterion): seq<Economia>
  {
    Gather(s, Selector(c))
  }

  /** Select keeps every copy of a record meeting the criterion and no copy of
      any other record. */
  lemma {:induction false} SelectCount(s: seq<Economia>, c: Criterion)
    ensures forall e :: multiset(Select(s, c))[e] == if Holds(c, e) then multiset(s)[e] else 0
    decreases |s|
  {
    if s != [] {
      var n := |s| - 1;
      SelectCount(s[..n], c);
      assert s == s[..n] + [s[n]];
      assert Select(s, c) == Select(s[..n], c) + (if Holds(c, s[n]) then [s[n]] else []);
    }
  }

  /** Select keeps exactly the records meeting the criterion, as many times as
      they are stored, in their order. */
  lemma SelectMeaning(s: seq<Economia>, c: Criterion)
    ensures forall e :: e in Select(s, c) <==> e in s && Holds(c, e)
    ensures forall e :: multiset(Select(s, c))[e] == if Holds(c, e) then multiset(s)[e] else 0
    ensures IsSubsequence(Select(s, c), s)
  {
    SelectCount(s, c);
    var r := Select(s, c);
    var idx := GatherPositions(s, Selector(c));
    forall k | 0 <= k < |idx|
      ensures idx[k] < |s| && r[k] == s[idx[k]] && Holds(c, r[k])
    {
      assert Selector(c)(idx[k], s[idx[k]]) == Some(r[k]);
    }
    assert Embedding(idx, r, s);
    forall e | e in s && Holds(c, e)
      ensures e in r
    {
      var j :| 0 <= j < |s| && s[j] == e;
      assert Selected(s, Selector(c), j);
      var k :| 0 <= k < |idx| && idx[k] == j;
      assert r[k] == e;
    }
  }

  /** The manager's filter form; an empty field or a missing date filters nothing.
      Date bounds are the instants at which the chosen days start. */
  datatype Filters = Filters(
    userId: string,
    tipo: string,
    status: string,
    dataInicio: Option<Instant>,
    dataFim: Option<Instant>)

  predicate Matches(f: Filters, e: Economia)
  {
    && (f.userId != "" ==> e.userId == f.userId)
    && (f.tipo != "" ==> e.tipo == f.tipo)
    && (f.status != "" ==> e.status == f.status)
    && (f.dataInicio.Some? ==> e.dataCriacao >= f.dataInicio.value)
    && (f.dataFim.Some? ==> e.dataCriacao <= f.dataFim.value + END_OF_DAY_MS)
  }

  predicate NoFilter(f: Filters)
  {
    f.userId == "" && f.tipo == "" && f.status == "" && f.dataInicio.None? && f.dataFim.None?
  }

  /** The `k`-th filter of the form in the order the source applies them, when
      that field is filled in. */
  function CriterionAt(f: Filters, k: nat): Option<Criterion>
  {
    if k == 0 then (if f.userId != "" then Some(UserIs(f.userId)) else None)
    else if k == 1 then (if f.tipo != "" then Some(TipoIs(f.tipo)) else None)
    else if k == 2 then (if f.status != "" then Some(StatusIs(f.status)) else None)
    else if k == 3 then (if f.dataInicio.Some? then Some(CreatedFrom(f.dataInicio.value)) else None)
    else if k == 4 then (if f.dataFim.Some? then Some(CreatedUntil(f.dataFim.value)) else None)
    else None
  }

  /** `e` meets the first `k` filters of the form. */
  ghost predicate MatchesFirst(f: Filters, e: Economia, k: nat)
  {
    k > 0 ==> MatchesFirst(f, e, k - 1)
              && (CriterionAt(f, k - 1).Some? ==> Holds(CriterionAt(f, k - 1).value, e))
  }

  /** `r` holds exactly the records of `base` meeting the first `k` filters, each
      as many times as `base` does. */
  ghost predicate Narrowed(r: seq<Economia>, base: seq<Economia>, f: Filters, k: nat)
  {
    && (forall e :: e in r <==> e in base && MatchesFirst(f, e, k))
    && (forall e :: multiset(r)[e] == if MatchesFirst(f, e, k) then multiset(base)[e] else 0)
  }

  /** Meeting the first `k + 1` filters is meeting the first `k` and then the
      `k`-th, when its field is filled in. */
  lemma MatchesOneMore(f: Filters, e: Economia, k: nat)
    ensures MatchesFirst(f, e, k + 1) <==>
      MatchesFirst(f, e, k) && (CriterionAt(f, k).Some? ==> Holds(CriterionAt(f, k).value, e))
  {
  }

  /** Applying the `k`-th filter narrows to the first `k + 1` filters. */
  lemma {:induction false} SelectNarrows(before: seq<Economia>, base: seq<Economia>, f: Filters, k: nat, c: Criterion)
    requires Narrowed(before, base, f, k)
    requires CriterionAt(f, k) == Some(c)
    ensures Narrowed(Select(before, c), base, f, k + 1)
  {
    var after := Select(before, c);
    SelectMeaning(before, c);
    forall e
      ensures e in after <==> e in base && MatchesFirst(f, e, k + 1)
      ensures multiset(after)[e] == if MatchesFirst(f, e, k + 1) then multiset(base)[e] else 0
    {
      MatchesOneMore(f, e, k);
      assert e in after <==> e in before && Holds(c, e);
      assert e in before <==> e in base && MatchesFirst(f, e, k);
      assert multiset(after)[e] == if Holds(c, e) then multiset(before)[e] else 0;
      assert multiset(before)[e] == if MatchesFirst(f, e, k) then multiset(base)[e] else 0;
    }
  }

  /** Skipping the `k`-th filter, whose field is empty, still narrows to the first
      `k + 1` filters. */
  lemma {:induction false} SkipNarrows(before: seq<Economia>, base: seq<Economia>, f: Filters, k: nat)
    requires Narrowed(before, base, f, k)
    requires CriterionAt(f, k).None?
    ensures Narrowed(before, base, f, k + 1)
  {
    forall e
      ensures e in before <==> e in base && MatchesFirst(f, e, k + 1)
      ensures multiset(before)[e] == if MatchesFirst(f, e, k + 1) then multiset(base)[e] else 0
    {
      MatchesOneMore(f, e, k);
    }
  }

  /** The store after the first `k` filters of the form. */
  function FilterUpTo(s: seq<Economia>, f: Filters, k: nat): seq<Economia>
  {
    if k == 0 then s
    else
      match CriterionAt(f, k - 1)
      case Some(c) => Select(FilterUpTo(s, f, k - 1), c)
      case None => FilterUpTo(s, f, k - 1)
  }

  /** The store after every filter of the form. */
  function Filtered(s: seq<Economia>, f: Filters): seq<Economia>
  {
    FilterUpTo(s, f, 5)
  }

  /** One filtering step: applying the `k`-th filter (or skipping it when its
      field is empty) narrows to the first `k + 1` filters. */
  lemma {:induction false} FilterStep(s: seq<Economia>, f: Filters, k: nat)
    requires Narrowed(FilterUpTo(s, f, k), s, f, k) && IsSubsequence(FilterUpTo(s, f, k), s)
    ensures Narrowed(FilterUpTo(s, f, k + 1), s, f, k + 1)
    ensures IsSubsequence(FilterUpTo(s, f, k + 1), s)
  {
    var before := FilterUpTo(s, f, k);
    match CriterionAt(f, k)
    case Some(c) =>
      assert FilterUpTo(s, f, k + 1) == Select(before, c);
      SelectNarrows(before, s, f, k, c);
      SelectMeaning(before, c);
      SubsequenceTransitive(Select(before, c), before, s);
    case None =>
      assert FilterUpTo(s, f, k + 1) == before;
      SkipNarrows(before, s, f, k);
  }

  /** Before any filter, the store is narrowed to itself. */
  lemma NothingFilteredYet(s: seq<Economia>, f: Filters)
    ensures Narrowed(s, s, f, 0)
    ensures IsSubsequence(s, s)
  {
    SubsequenceReflexive(s);
  }

  lemma {:induction false} FilterUpToNarrows(s: seq<Economia>, f: Filters, k: nat)
    ensures Narrowed(FilterUpTo(s, f, k), s, f, k)
    ensures IsSubsequence(FilterUpTo(s, f, k), s)
  {
    if k == 0 {
      NothingFilteredYet(s, f);
    } else {
      FilterUpToNarrows(s, f, k - 1);
      FilterStep(s, f, k - 1);
    }
  }

  /** The filtered store holds exactly the records meeting every filled-in field,
      as many times as they are stored, in stored order; with nothing filled in it
      is the whole store. */
  lemma FilteredMeaning(s: seq<Economia>, f: Filters)
    ensures forall e :: e in Filtered(s, f) <==> e in s && Matches(f, e)
    ensures forall e :: multiset(Filtered(s, f))[e] == if Matches(f, e) then multiset(s)[e] else 0
    ensures IsSubsequence(Filtered(s, f), s)
    ensures NoFilter(f) ==> Filtered(s, f) == s
  {
    FilterUpToNarrows(s, f, 5);
    forall e | true
      ensures e in Filtered(s, f) <==> e in s && Matches(f, e)
      ensures multiset(Filtered(s, f))[e] == if Matches(f, e) then multiset(s)[e] else 0
    {
      MatchesAllFive(f, e);
    }
    if NoFilter(f) {
      assert FilterUpTo(s, f, 1) == s;
      assert FilterUpTo(s, f, 2) == s;
      assert FilterUpTo(s, f, 3) == s;
      assert FilterUpTo(s, f, 4) == s;
    }
  }

  lemma {:induction false} MatchesAllFive(f: Filters, e: Economia)
    ensures MatchesFirst(f, e, 5) <==> Matches(f, e)
  {
    assert MatchesFirst(f, e, 1) <==> (f.userId != "" ==> e.userId == f.userId);
    assert MatchesFirst(f, e, 2) <==> MatchesFirst(f, e, 1) && (f.tipo != "" ==> e.tipo == f.tipo);
    assert MatchesFirst(f, e, 3) <==> MatchesFirst(f, e, 2) && (f.status != "" ==> e.status == f.status);
    assert MatchesFirst(f, e, 4) <==>
      MatchesFirst(f, e, 3) && (f.dataInicio.Some? ==> e.dataCriacao >= f.dataInicio.value);
  }

  class LocalStore {
    var users: seq<User>
    var economias: seq<Economia>
    var currentSession: Option<Session>

    /** The current session, when there is one, is the session of a stored
        account. */
    ghost predicate SessionRegistered()
      reads this
    {
      currentSession.Some? ==>
        exists i :: 0 <= i < |users| && currentSession.value == SessionFor(users[i], currentSession.value.loginTime)
    }

    /** Seed the two default accounts, an empty list and no session. */
    constructor InitializeSystem()
      ensures users == DefaultUsers() && economias == [] && currentSession == None
      ensures SessionRegistered()
    {
      users := DefaultUsers();
      economias := [];
      currentSession := None;
    }

    /** The signed-in user's session, or none before a login and after a logout. */
    function GetCurrentSession(): (r: Option<Session>)
      reads this
      ensures r == currentSession
      ensures SessionRegistered() && r.Some? ==>
        exists i :: 0 <= i < |users| && r.value == SessionFor(users[i], r.value.loginTime)
    {
      currentSession
    }

    /** Sign in with the first account whose username and password match; the
        session is stored only on success. */
    method AuthenticateUser(username: string, password: string, loginTime: Instant)
      returns (r: Result<Session, StoreError>)
      modifies this`currentSession
      ensures match FindUser(users, username, password)
        case Some(i) => r == Success(SessionFor(users[i], loginTime)) && currentSession == Some(r.value)
        case None => r == Failure(WrongCredentials) && currentSession == old(currentSession)
      ensures old(SessionRegistered()) ==> SessionRegistered()
    {
      var found := FindUser(users, username, password);
      match found
      case Some(i) =>
        var session := SessionFor(users[i], loginTime);
        currentSession := Some(session);
        r := Success(session);
      case None =>
        r := Failure(WrongCredentials);
    }

    method Logout()
      modifies this`currentSession
      ensures currentSession == None
      ensures SessionRegistered()
    {
      currentSession := None;
    }

    /** The records owned by `userId`, each as many times as it is stored, in
        stored order. */
    function GetEconomiasByUser(userId: string): (r: seq<Economia>)
      reads this
      ensures forall e :: e in r <==> e in economias && e.userId == userId
      ensures forall e :: multiset(r)[e] == if e.userId == userId then multiset(economias)[e] else 0
      ensures IsSubsequence(r, economias)
    {
      SelectMeaning(economias, UserIs(userId));
      Select(economias, UserIs(userId))
    }

    /** The first record with this id, if any. */
    function GetEconomiaById(economiaId: string): (r: Option<Economia>)
      reads this
      ensures r.None? <==> forall e :: e in economias ==> e.id != economiaId
      ensures r.Some? ==> r.value in economias && r.value.id == economiaId
      ensures r.Some? ==> r.value == economias[IndexOfId(economias, economiaId).value]
    {
      match IndexOfId(economias, economiaId)
      case Some(i) => Some(economias[i])
      case None => None
    }

    /** Legacy save: append one record, or leave the list as it was. */
    method SaveEconomia(d: EconomiaData, id: string, now: Instant) returns (r: Result<Economia, StoreError>)
      modifies this`economias
      ensures r == NewEconomia(currentSession, d, id, now)
      ensures r.Success? ==> economias == old(economias) + [r.value]
      ensures r.Failure? ==> economias == old(economias)
    {
      var list := economias;
      var session := GetCurrentSession();
      if session.None? {
        return Failure(NotAuthenticated);
      }
      r := NewEconomia(session, d, id, now);
      if r.Success? {
        list := list + [r.value];
        economias := list;
      }
    }

    method SaveEconomiaCancelamento(d: EconomiaData, id: string, now: Instant)
      returns (r: Result<Economia, StoreError>)
      modifies this`economias
      ensures r == NewCancelamento(currentSession, d, id, now)
      ensures r.Success? ==> economias == old(economias) + [r.value]
      ensures r.Failure? ==> economias == old(economias)
    {
      var list := economias;
      var session := GetCurrentSession();
      if session.None? {
        return Failure(NotAuthenticated);
      }
      r := NewCancelamento(session, d, id, now);
      if r.Success? {
        list := list + [r.value];
        economias := list;
      }
    }

    method SaveEconomiaCorrecao(d: EconomiaData, id: string, now: Instant)
      returns (r: Result<Economia, StoreError>)
      modifies this`economias
      ensures r == NewCorrecao(currentSession, d, id, now)
      ensures r.Success? ==> economias == old(economias) + [r.value]
      ensures r.Failure? ==> economias == old(economias)
    {
      var list := economias;
      var session := GetCurrentSession();
      if session.None? {
        return Failure(NotAuthenticated);
      }
      r := NewCorrecao(session, d, id, now);
      if r.Success? {
        list := list + [r.value];
        economias := list;
      }
    }

    /** Review the first record with this id, whatever its current status. */
    method UpdateEconomiaStatus(economiaId: string, status: string, observacoes: string, now: Instant)
      returns (r: Result<Economia, StoreError>)
      modifies this`economias
      ensures var expected := StatusUpdated(old(economias), economiaId, StatusUpdate(status, observacoes, now));
        if expected.None? then r == Failure(NotFound) && economias == old(economias)
        else economias == expected.value && r == Success(ApplyReview(
          old(economias)[IndexOfId(old(economias), economiaId).value], StatusUpdate(status, observacoes, now)))
    {
      var list := economias;
      var index := IndexOfId(list, economiaId);
      if index.None? {
        return Failure(NotFound);
      }
      var i := index.value;
      list := list[i := ApplyReview(list[i], StatusUpdate(status, observacoes, now))];
      economias := list;
      r := Success(list[i]);
    }

    /** Successive filters, one per non-empty field of the form. */
    method FilterEconomias(filters: Filters) returns (r: seq<Economia>)
      ensures r == Filtered(economias, filters)
      ensures forall e :: e in r <==> e in economias && Matches(filters, e)
      ensures forall e :: multiset(r)[e] == if Matches(filters, e) then multiset(economias)[e] else 0
      ensures IsSubsequence(r, economias)
      ensures NoFilter(filters) ==> r == economias
    {
      r := economias;
      if filters.userId != "" {
        r := Select(r, UserIs(filters.userId));
      }
      assert r == FilterUpTo(economias, filters, 1);
      if filters.tipo != "" {
        r := Select(r, TipoIs(filters.tipo));
      }
      assert r == FilterUpTo(economias, filters, 2);
      if filters.status != "" {
        r := Select(r, StatusIs(filters.status));
      }
      assert r == FilterUpTo(economias, filters, 3);
      if filters.dataInicio.Some? {
        r := Select(r, CreatedFrom(filters.dataInicio.value));
      }
      assert r == FilterUpTo(economias, filters, 4);
      if filters.dataFim.Some? {
        r := Select(r, CreatedUntil(filters.dataFim.value));
      }
      FilteredMeaning(economias, filters);
    }
  }
}
