/** The dashboard indicators: one pass over a list of savings records producing
    the counted total (everything not rejected) and the approved, pending and
    rejected totals, all in BRL. The same routine appears verbatim in each of the
    three stores; this module is that one routine. */
module Totals {
  import opened Domain

  datatype Totals = Totals(
    totalEconomizado: real,
    totalAprovado: real,
    totalPendente: real,
    totalReprovado: real)

  /** `a || b || 0` on numbers: a zero falls through to the next option. */
  function FirstNonZero(a: real, b: real): (r: real)
    ensures a != 0.0 ==> r == a
    ensures a == 0.0 ==> r == b
  {
    if a != 0.0 then a else if b != 0.0 then b else 0.0
  }

  /** The BRL amount a record contributes. Records from before currency
      conversion carry only the unconverted field, hence the fallback. */
  function Amount(e: Economia): (r: real)
    ensures e.tipoEconomia == CANCELAMENTO ==>
      (e.valorBRL != 0.0 ==> r == e.valorBRL) && (e.valorBRL == 0.0 ==> r == e.valorCancelado)
    ensures e.tipoEconomia != CANCELAMENTO ==>
      (e.valorEconomiaBRL != 0.0 ==> r == e.valorEconomiaBRL)
      && (e.valorEconomiaBRL == 0.0 ==> r == e.valorEconomia)
  {
    if e.tipoEconomia == CANCELAMENTO then FirstNonZero(e.valorBRL, e.valorCancelado)
    else FirstNonZero(e.valorEconomiaBRL, e.valorEconomia)
  }

  /** Which records a total collects. */
  datatype Bucket = Counted | WithStatus(status: string)

  predicate InBucket(b: Bucket, e: Economia)
  {
    match b
    case Counted => e.status != REPROVADO
    case WithStatus(st) => e.status == st
  }

  /** Sum of the amounts of the records of `s` in bucket `b`. */
  function Sum(s: seq<Economia>, b: Bucket): real
    decreases |s|
  {
    if s == [] then 0.0
    else
      var n := |s| - 1;
      Sum(s[..n], b) + (if InBucket(b, s[n]) then Amount(s[n]) else 0.0)
  }

  /** A bucket no record falls into sums to 0, and with no negative amount no
      total is negative. */
  lemma {:induction false} SumBounds(s: seq<Economia>, b: Bucket)
    ensures (forall i :: 0 <= i < |s| ==> !InBucket(b, s[i])) ==> Sum(s, b) == 0.0
    ensures (forall i :: 0 <= i < |s| ==> Amount(s[i]) >= 0.0) ==> Sum(s, b) >= 0.0
    decreases |s|
  {
    if s != [] {
      var n := |s| - 1;
      SumBounds(s[..n], b);
      assert forall i :: 0 <= i < n ==> s[..n][i] == s[i];
    }
  }

  /** The single pass of the source: each record's amount is resolved once and
      added to the counted total unless rejected, and to its own status total. */
  method CalculateTotals(economias: seq<Economia>) returns (t: Totals)
    ensures t.totalEconomizado == Sum(economias, Counted)
    ensures t.totalAprovado == Sum(economias, WithStatus(APROVADO))
    ensures t.totalPendente == Sum(economias, WithStatus(PENDENTE))
    ensures t.totalReprovado == Sum(economias, WithStatus(REPROVADO))
    ensures economias == [] ==> t == Totals(0.0, 0.0, 0.0, 0.0)
  {
    t := Totals(0.0, 0.0, 0.0, 0.0);
    for i := 0 to |economias|
      invariant t.totalEconomizado == Sum(economias[..i], Counted)
      invariant t.totalAprovado == Sum(economias[..i], WithStatus(APROVADO))
      invariant t.totalPendente == Sum(economias[..i], WithStatus(PENDENTE))
      invariant t.totalReprovado == Sum(economias[..i], WithStatus(REPROVADO))
    {
      var e := economias[i];
      assert economias[..i + 1][..i] == economias[..i];
      var valorEconomia := 0.0;
      if e.tipoEconomia == CANCELAMENTO {
        valorEconomia := FirstNonZero(e.valorBRL, e.valorCancelado);
      } else {
        valorEconomia := FirstNonZero(e.valorEconomiaBRL, e.valorEconomia);
      }
      if e.status != REPROVADO {
        t := t.(totalEconomizado := t.totalEconomizado + valorEconomia);
      }
      if e.status == APROVADO {
        t := t.(totalAprovado := t.totalAprovado + valorEconomia);
      } else if e.status == PENDENTE {
        t := t.(totalPendente := t.totalPendente + valorEconomia);
      } else if e.status == REPROVADO {
        t := t.(totalReprovado := t.totalReprovado + valorEconomia);
      }
    }
    assert economias[..|economias|] == economias;
  }

  /** Sums split over concatenation. */
  lemma {:induction false} SumAppend(s: seq<Economia>, u: seq<Economia>, b: Bucket)
    ensures Sum(s + u, b) == Sum(s, b) + Sum(u, b)
    decreases |u|
  {
    if u == [] {
      assert s + u == s;
    } else {
      var n := |u| - 1;
      assert (s + u)[..|s| + n] == s + u[..n];
      assert (s + u)[|s| + n] == u[n];
      SumAppend(s, u[..n], b);
    }
  }

  /** The totals do not depend on the order of the records. */
  lemma {:induction false} SumPermutation(s: seq<Economia>, u: seq<Economia>, b: Bucket)
    requires multiset(s) == multiset(u)
    ensures Sum(s, b) == Sum(u, b)
    decreases |s|
  {
    if s != [] {
      var n := |s| - 1;
      assert s[n] in multiset(s);
      var j :| 0 <= j < |u| && u[j] == s[n];
      RemoveMatching(s, u, j);
      SumPermutation(s[..n], u[..j] + u[j + 1..], b);
      SumRemove(u, j, b);
    }
  }

  /** Removing the last record of `s` and a copy of it from `u` keeps the two
      multisets equal. */
  lemma RemoveMatching(s: seq<Economia>, u: seq<Economia>, j: nat)
    requires s != [] && multiset(s) == multiset(u) && j < |u| && u[j] == s[|s| - 1]
    ensures multiset(s[..|s| - 1]) == multiset(u[..j] + u[j + 1..])
  {
    var n := |s| - 1;
    assert s == s[..n] + [s[n]];
    assert multiset(s) == multiset(s[..n]) + multiset{s[n]};
    assert u == u[..j] + [u[j]] + u[j + 1..];
    assert multiset(u) == multiset(u[..j]) + multiset{u[j]} + multiset(u[j + 1..]);
    var rest := multiset(u[..j] + u[j + 1..]);
    assert rest == multiset(u[..j]) + multiset(u[j + 1..]);
    assert multiset(s[..n]) + multiset{s[n]} == rest + multiset{s[n]};
    assert multiset(s[..n]) == multiset(s[..n]) + multiset{s[n]} - multiset{s[n]};
    assert rest == rest + multiset{s[n]} - multiset{s[n]};
  }

  /** A sum is the sum without one record plus that record's share. */
  lemma SumRemove(u: seq<Economia>, j: nat, b: Bucket)
    requires j < |u|
    ensures Sum(u, b) == Sum(u[..j] + u[j + 1..], b) + (if InBucket(b, u[j]) then Amount(u[j]) else 0.0)
  {
    var x := u[j];
    assert u == (u[..j] + [x]) + u[j + 1..];
    SumAppend(u[..j] + [x], u[j + 1..], b);
    SumAppend(u[..j], [x], b);
    SumAppend(u[..j], u[j + 1..], b);
    assert [x][..0] == [];
  }

  /** When every status is one of the three, the counted total is the approved
      total plus the pending total. */
  lemma {:induction false} CountedIsApprovedPlusPending(s: seq<Economia>)
    requires forall e :: e in s ==> e.status in {APROVADO, PENDENTE, REPROVADO}
    ensures Sum(s, Counted) == Sum(s, WithStatus(APROVADO)) + Sum(s, WithStatus(PENDENTE))
    decreases |s|
  {
    if s != [] {
      var n := |s| - 1;
      assert forall e :: e in s[..n] ==> e in s;
      CountedIsApprovedPlusPending(s[..n]);
    }
  }

  /** Whatever the statuses, counted plus rejected covers every record once. */
  lemma {:induction false} CountedPlusRejectedIsEverything(s: seq<Economia>)
    ensures Sum(s, Counted) + Sum(s, WithStatus(REPROVADO)) == SumAll(s)
    decreases |s|
  {
    if s != [] {
      CountedPlusRejectedIsEverything(s[..|s| - 1]);
    }
  }

  /** Sum of every record's amount. */
  function SumAll(s: seq<Economia>): real
    decreases |s|
  {
    if s == [] then 0.0 else SumAll(s[..|s| - 1]) + Amount(s[|s| - 1])
  }
}
