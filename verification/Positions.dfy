/** The positions of a sequence that meet a condition, from the first to the last. */
module Positions {
  predicate Increasing(ks: seq<nat>) {
    forall i, j :: 0 <= i < j < |ks| ==> ks[i] < ks[j]
  }

  function Where(n: nat, keep: nat -> bool): seq<nat> {
    if n == 0 then [] else Where(n - 1, keep) + (if keep(n - 1) then [n - 1] else [])
  }

  lemma {:induction false} WhereBelow(n: nat, keep: nat -> bool)
    ensures forall i :: 0 <= i < |Where(n, keep)| ==> Where(n, keep)[i] < n && keep(Where(n, keep)[i])
  {
    if n > 0 {
      WhereBelow(n - 1, keep);
    }
  }

  lemma {:induction false} WhereIncreasing(n: nat, keep: nat -> bool)
    ensures Increasing(Where(n, keep))
  {
    if n > 0 {
      WhereIncreasing(n - 1, keep);
      WhereBelow(n - 1, keep);
    }
  }

  lemma {:induction false} WhereHas(n: nat, keep: nat -> bool, k: nat)
    requires k < n && keep(k)
    ensures k in Where(n, keep)
  {
    if k < n - 1 {
      WhereHas(n - 1, keep, k);
    }
  }

  lemma WhereIs(n: nat, keep: nat -> bool)
    ensures Increasing(Where(n, keep)) && forall k: nat :: k in Where(n, keep) <==> k < n && keep(k)
  {
    WhereBelow(n, keep);
    WhereIncreasing(n, keep);
    forall k: nat | k < n && keep(k) ensures k in Where(n, keep) {
      WhereHas(n, keep, k);
    }
  }

  lemma {:induction false} WhereSame(n: nat, keep: nat -> bool, other: nat -> bool)
    requires forall k: nat :: k < n ==> keep(k) == other(k)
    ensures Where(n, keep) == Where(n, other)
  {
    if n > 0 {
      WhereSame(n - 1, keep, other);
    }
  }

  lemma {:induction false} WhereNone(n: nat, keep: nat -> bool)
    requires forall k: nat :: k < n ==> !keep(k)
    ensures Where(n, keep) == []
  {
    if n > 0 {
      WhereNone(n - 1, keep);
    }
  }
}
