/** Two list shapes that recur in the source: keeping, in order, the elements a
    selector accepts (`Array.filter`, and loops that `continue` past failures), and
    a fail-fast traversal that stops at the first element that fails. Selectors
    take the element's index as well, so that a per-element outcome supplied from
    outside (an upload's result, say) can be looked up by position. */
module Collections {
  import opened Domain

  /** `r` is `s` with some elements dropped and the rest in their original order,
      witnessed by the increasing positions `idx` they came from. */
  ghost predicate Embedding<T>(idx: seq<nat>, r: seq<T>, s: seq<T>)
  {
    && |idx| == |r|
    && (forall k :: 0 <= k < |idx| ==> idx[k] < |s| && r[k] == s[idx[k]])
    && (forall k1, k2 :: 0 <= k1 < k2 < |idx| ==> idx[k1] < idx[k2])
  }

  ghost predicate IsSubsequence<T>(r: seq<T>, s: seq<T>)
  {
    exists idx: seq<nat> :: Embedding(idx, r, s)
  }

  lemma SubsequenceReflexive<T>(s: seq<T>)
    ensures IsSubsequence(s, s)
  {
    var idx := seq(|s|, k requires 0 <= k < |s| => k);
    assert Embedding(idx, s, s);
  }

  lemma {:induction false} SubsequenceTransitive<T>(a: seq<T>, b: seq<T>, c: seq<T>)
    requires IsSubsequence(a, b) && IsSubsequence(b, c)
    ensures IsSubsequence(a, c)
  {
    var i1: seq<nat> :| Embedding(i1, a, b);
    var i2: seq<nat> :| Embedding(i2, b, c);
    var idx := seq(|i1|, k requires 0 <= k < |i1| => i2[i1[k]]);
    forall k1, k2 | 0 <= k1 < k2 < |idx|
      ensures idx[k1] < idx[k2]
    {
      assert i1[k1] < i1[k2];
    }
    assert Embedding(idx, a, c);
  }

  /** The elements of `s` that `f` maps to `Some`, mapped, in order. */
  function Gather<A, B>(s: seq<A>, f: (nat, A) -> Option<B>): (r: seq<B>)
    ensures |r| <= |s|
    decreases |s|
  {
    if s == [] then []
    else
      var n := |s| - 1;
      Gather(s[..n], f) + (match f(n, s[n]) case Some(b) => [b] case None => [])
  }

  /** Positions of `s` whose selector result is `Some`. */
  ghost predicate Selected<A, B>(s: seq<A>, f: (nat, A) -> Option<B>, j: int)
  {
    0 <= j < |s| && f(j, s[j]).Some?
  }

  /** `idx` lists, in increasing order, exactly the selected positions of `s`,
      and the gathered elements are the selector's values at those positions. */
  ghost predicate Positions<A, B>(s: seq<A>, f: (nat, A) -> Option<B>, idx: seq<nat>)
  {
    && |idx| == |Gather(s, f)|
    && (forall k :: 0 <= k < |idx| ==> idx[k] < |s| && f(idx[k], s[idx[k]]) == Some(Gather(s, f)[k]))
    && (forall k1, k2 :: 0 <= k1 < k2 < |idx| ==> idx[k1] < idx[k2])
    && (forall j :: Selected(s, f, j) ==> j in idx)
  }

  /** Gather keeps exactly the selected positions, in increasing order, and
      each kept element is the selector's value at its position. */
  lemma {:induction false} GatherPositions<A, B>(s: seq<A>, f: (nat, A) -> Option<B>)
    returns (idx: seq<nat>)
    ensures Positions(s, f, idx)
    decreases |s|
  {
    if s == [] {
      idx := [];
    } else {
      var n := |s| - 1;
      var p := GatherPositions(s[..n], f);
      if f(n, s[n]).Some? {
        PositionsKeepLast(s, f, p);
        idx := p + [n];
      } else {
        PositionsSkipLast(s, f, p);
        idx := p;
      }
    }
  }

  /** A selected last element adds its own position at the end. */
  lemma PositionsKeepLast<A, B>(s: seq<A>, f: (nat, A) -> Option<B>, p: seq<nat>)
    requires s != [] && Positions(s[..|s| - 1], f, p) && f(|s| - 1, s[|s| - 1]).Some?
    ensures Positions(s, f, p + [|s| - 1])
  {
    var n := |s| - 1;
    var prefix := s[..n];
    var g := Gather(prefix, f);
    var idx := p + [n];
    assert Gather(s, f) == g + [f(n, s[n]).value];
    forall k | 0 <= k < |idx|
      ensures idx[k] < |s| && f(idx[k], s[idx[k]]) == Some(Gather(s, f)[k])
    {
      if k < |p| {
        assert idx[k] == p[k] && Gather(s, f)[k] == g[k];
        assert s[p[k]] == prefix[p[k]];
      }
    }
    forall k1, k2 | 0 <= k1 < k2 < |idx|
      ensures idx[k1] < idx[k2]
    {
      assert idx[k1] == p[k1];
    }
    forall j | Selected(s, f, j)
      ensures j in idx
    {
      if j < n {
        assert prefix[j] == s[j];
        assert Selected(prefix, f, j);
        assert j in p;
      } else {
        assert idx[|p|] == n;
      }
    }
  }

  /** An unselected last element adds nothing. */
  lemma PositionsSkipLast<A, B>(s: seq<A>, f: (nat, A) -> Option<B>, p: seq<nat>)
    requires s != [] && Positions(s[..|s| - 1], f, p) && f(|s| - 1, s[|s| - 1]).None?
    ensures Positions(s, f, p)
  {
    var n := |s| - 1;
    var prefix := s[..n];
    assert Gather(s, f) == Gather(prefix, f);
    forall k | 0 <= k < |p|
      ensures p[k] < |s| && f(p[k], s[p[k]]) == Some(Gather(s, f)[k])
    {
      assert s[p[k]] == prefix[p[k]];
    }
    forall j | Selected(s, f, j)
      ensures j in p
    {
      assert j != n;
      assert prefix[j] == s[j];
      assert Selected(prefix, f, j);
    }
  }

  /** Gathering one more element appends that element's selected value, if any. */
  lemma GatherSnoc<A, B>(s: seq<A>, i: nat, f: (nat, A) -> Option<B>)
    requires i < |s|
    ensures Gather(s[..i + 1], f) == Gather(s[..i], f) + (match f(i, s[i]) case Some(b) => [b] case None => [])
  {
    assert s[..i + 1][..i] == s[..i];
  }

  /** A selector that accepts everything keeps every element, mapped. */
  lemma {:induction false} GatherEverything<A, B>(s: seq<A>, f: (nat, A) -> Option<B>)
    requires forall j :: 0 <= j < |s| ==> f(j, s[j]).Some?
    ensures |Gather(s, f)| == |s|
    ensures forall j :: 0 <= j < |s| ==> Gather(s, f)[j] == f(j, s[j]).value
    decreases |s|
  {
    if s != [] {
      var n := |s| - 1;
      assert forall j :: 0 <= j < n ==> s[..n][j] == s[j];
      GatherEverything(s[..n], f);
    }
  }

  /** A selector that accepts nothing keeps nothing. */
  lemma {:induction false} GatherNothing<A, B>(s: seq<A>, f: (nat, A) -> Option<B>)
    requires forall j :: 0 <= j < |s| ==> f(j, s[j]).None?
    ensures Gather(s, f) == []
    decreases |s|
  {
    if s != [] {
      var n := |s| - 1;
      assert forall j :: 0 <= j < n ==> s[..n][j] == s[j];
      GatherNothing(s[..n], f);
    }
  }

  /** Fail-fast traversal: map every element through `f`, or stop at the first
      failure and report it. */
  function Collect<A, B, E>(s: seq<A>, f: (nat, A) -> Result<B, E>): (r: Result<seq<B>, E>)
    ensures r.Success? ==> |r.value| == |s|
    decreases |s|
  {
    if s == [] then Success([])
    else
      var n := |s| - 1;
      match Collect(s[..n], f)
      case Failure(e) => Failure(e)
      case Success(bs) =>
        match f(n, s[n])
        case Failure(e) => Failure(e)
        case Success(b) => Success(bs + [b])
  }

  /** Collect succeeds exactly when every element succeeds, and then holds each
      element's value at its own position. */
  lemma {:induction false} CollectSucceeds<A, B, E>(s: seq<A>, f: (nat, A) -> Result<B, E>)
    ensures Collect(s, f).Success? <==> forall j :: 0 <= j < |s| ==> f(j, s[j]).Success?
    ensures Collect(s, f).Success? ==>
      forall j :: 0 <= j < |s| ==> Collect(s, f).value[j] == f(j, s[j]).value
    decreases |s|
  {
    if s != [] {
      var n := |s| - 1;
      assert forall j :: 0 <= j < n ==> s[..n][j] == s[j];
      CollectSucceeds(s[..n], f);
    }
  }

  /** When Collect fails, it reports the failure of the first failing element. */
  lemma {:induction false} CollectFirstFailure<A, B, E>(s: seq<A>, f: (nat, A) -> Result<B, E>)
    returns (i: nat)
    requires Collect(s, f).Failure?
    ensures i < |s| && f(i, s[i]).Failure? && Collect(s, f).error == f(i, s[i]).error
    ensures forall j :: 0 <= j < i ==> f(j, s[j]).Success?
    decreases |s|
  {
    var n := |s| - 1;
    assert forall j :: 0 <= j < n ==> s[..n][j] == s[j];
    if Collect(s[..n], f).Failure? {
      i := CollectFirstFailure(s[..n], f);
    } else {
      CollectSucceeds(s[..n], f);
      i := n;
    }
  }

  /** A failure within a prefix is the result of the whole traversal. */
  lemma {:induction false} CollectPrefixFailure<A, B, E>(s: seq<A>, k: nat, f: (nat, A) -> Result<B, E>)
    requires k <= |s| && Collect(s[..k], f).Failure?
    ensures Collect(s, f) == Collect(s[..k], f)
    decreases |s|
  {
    if k < |s| {
      var n := |s| - 1;
      assert s[..n][..k] == s[..k];
      CollectPrefixFailure(s[..n], k, f);
    } else {
      assert s[..k] == s;
    }
  }
}
