/** The priority queue as a value: a sequence of entries, earliest SLO first. */
module QueueSpec {
  import opened Types

  type Entry = BatchJobPriority

  /** Where an entry goes: before the first entry whose SLO is strictly later. */
  function InsertIndex(q: seq<Entry>, slo: int): (i: nat)
    ensures i <= |q|
    ensures forall k :: 0 <= k < i ==> q[k].slo <= slo
    ensures i < |q| ==> slo < q[i].slo
  {
    if q == [] || slo < q[0].slo then 0
    else
      var i := InsertIndex(q[1..], slo);
      assert forall k :: 1 <= k < i + 1 ==> q[k] == q[1..][k - 1];
      i + 1
  }

  function Insert(q: seq<Entry>, e: Entry): seq<Entry> {
    q[..InsertIndex(q, e.slo)] + [e] + q[InsertIndex(q, e.slo)..]
  }

  /** Position of the first entry with the ID, or the length when there is none. */
  function IndexOf(q: seq<Entry>, id: JobId): (i: nat)
    ensures i <= |q|
    ensures forall k :: 0 <= k < i ==> q[k].id != id
    ensures i < |q| ==> q[i].id == id
  {
    if q == [] || q[0].id == id then 0
    else
      var i := IndexOf(q[1..], id);
      assert forall k :: 1 <= k < i + 1 ==> q[k] == q[1..][k - 1];
      i + 1
  }

  function Cut(q: seq<Entry>, i: nat): seq<Entry>
    requires i < |q|
  {
    q[..i] + q[i + 1..]
  }

  function Without(q: seq<Entry>, id: JobId): seq<Entry> {
    var i := IndexOf(q, id);
    if i == |q| then q else Cut(q, i)
  }

  function Min(a: nat, b: nat): nat {
    if a < b then a else b
  }

  predicate Sorted(q: seq<Entry>) {
    forall i, j :: 0 <= i < j < |q| ==> q[i].slo <= q[j].slo
  }

  predicate DistinctIds(q: seq<Entry>) {
    forall i, j :: 0 <= i < j < |q| ==> q[i].id != q[j].id
  }

  function Ids(q: seq<Entry>): set<JobId> {
    set i | 0 <= i < |q| :: q[i].id
  }

  lemma InsertKth(q: seq<Entry>, e: Entry, k: nat)
    requires k <= |q|
    ensures var i, r := InsertIndex(q, e.slo), Insert(q, e);
            |r| == |q| + 1 && r[k] == if k < i then q[k] else if k == i then e else q[k - 1]
  {
  }

  lemma InsertAt(q: seq<Entry>, e: Entry)
    ensures var i, r := InsertIndex(q, e.slo), Insert(q, e);
            && |r| == |q| + 1 && r[i] == e
            && (forall k :: 0 <= k < i ==> r[k] == q[k])
            && (forall k :: i < k < |r| ==> r[k] == q[k - 1])
            && (forall k :: 0 <= k < |q| ==> q[k] == r[if k < i then k else k + 1])
  {
    var i, r := InsertIndex(q, e.slo), Insert(q, e);
    InsertKth(q, e, i);
    forall k | 0 <= k < i ensures r[k] == q[k] {
      InsertKth(q, e, k);
    }
    forall k | i < k < |r| ensures r[k] == q[k - 1] {
      InsertKth(q, e, k);
    }
    forall k | 0 <= k < |q| ensures q[k] == r[if k < i then k else k + 1] {
      InsertKth(q, e, if k < i then k else k + 1);
    }
  }

  lemma InsertSorted(q: seq<Entry>, e: Entry)
    requires Sorted(q)
    ensures Sorted(Insert(q, e))
  {
    var i, r := InsertIndex(q, e.slo), Insert(q, e);
    forall k | i <= k < |q| ensures e.slo < q[k].slo {
      if i < k { assert q[i].slo <= q[k].slo; }
    }
    InsertKth(q, e, i);
    forall j, k | 0 <= j < k < |r| ensures r[j].slo <= r[k].slo {
      InsertPair(q, e, j, k);
    }
  }

  lemma InsertPair(q: seq<Entry>, e: Entry, j: nat, k: nat)
    requires Sorted(q) && j < k <= |q|
    requires forall m :: InsertIndex(q, e.slo) <= m < |q| ==> e.slo < q[m].slo
    ensures Insert(q, e)[j].slo <= Insert(q, e)[k].slo
  {
    InsertKth(q, e, j);
    InsertKth(q, e, k);
  }

  lemma InsertBag(q: seq<Entry>, e: Entry)
    ensures multiset(Insert(q, e)) == multiset(q) + multiset{e}
  {
    var i := InsertIndex(q, e.slo);
    assert q == q[..i] + q[i..];
  }

  lemma InsertIds(q: seq<Entry>, e: Entry)
    ensures Ids(Insert(q, e)) == Ids(q) + {e.id}
    ensures DistinctIds(q) && e.id !in Ids(q) ==> DistinctIds(Insert(q, e))
  {
    InsertAt(q, e);
    var i, r := InsertIndex(q, e.slo), Insert(q, e);
    forall id ensures id in Ids(r) <==> id in Ids(q) + {e.id} {
      if id in Ids(q) {
        var k :| 0 <= k < |q| && q[k].id == id;
        assert r[if k < i then k else k + 1].id == id;
      }
    }
    if DistinctIds(q) && e.id !in Ids(q) {
      forall j, k | 0 <= j < k < |r| ensures r[j].id != r[k].id {
        if j == i { assert q[k - 1].id in Ids(q); }
        if k == i { assert q[j].id in Ids(q); }
      }
    }
  }

  lemma CutAt(q: seq<Entry>, i: nat)
    requires i < |q|
    ensures var r := Cut(q, i);
            && |r| == |q| - 1
            && (forall k :: 0 <= k < i ==> r[k] == q[k])
            && (forall k :: i <= k < |r| ==> r[k] == q[k + 1])
  {
  }

  lemma WithoutSorted(q: seq<Entry>, id: JobId)
    requires Sorted(q)
    ensures Sorted(Without(q, id))
  {
    if IndexOf(q, id) < |q| {
      CutAt(q, IndexOf(q, id));
    }
  }

  lemma PresentIff(q: seq<Entry>, id: JobId)
    ensures id in Ids(q) <==> IndexOf(q, id) < |q|
  {
  }

  lemma CutIds(q: seq<Entry>, i: nat)
    requires DistinctIds(q) && i < |q|
    ensures DistinctIds(Cut(q, i)) && Ids(Cut(q, i)) == Ids(q) - {q[i].id}
  {
    CutAt(q, i);
    var r := Cut(q, i);
    forall x ensures x in Ids(r) <==> x in Ids(q) - {q[i].id} {
      if x in Ids(q) && x != q[i].id {
        var k :| 0 <= k < |q| && q[k].id == x;
        assert r[if k < i then k else k - 1].id == x;
      }
      if x in Ids(r) {
        var k :| 0 <= k < |r| && r[k].id == x;
        assert r[k] == q[if k < i then k else k + 1];
      }
    }
  }

  lemma WithoutIds(q: seq<Entry>, id: JobId)
    requires DistinctIds(q)
    ensures DistinctIds(Without(q, id)) && Ids(Without(q, id)) == Ids(q) - {id}
  {
    PresentIff(q, id);
    if IndexOf(q, id) < |q| {
      CutIds(q, IndexOf(q, id));
    }
  }

  lemma CutBag(q: seq<Entry>, i: nat)
    requires i < |q|
    ensures multiset(Cut(q, i)) + multiset{q[i]} == multiset(q)
  {
    assert q == q[..i] + ([q[i]] + q[i + 1..]);
  }

  lemma TailKeeps(q: seq<Entry>)
    requires q != [] && Sorted(q)
    ensures Sorted(q[1..])
    ensures DistinctIds(q) ==> DistinctIds(q[1..]) && Ids(q[1..]) == Ids(q) - {q[0].id}
    ensures q[0].id in Ids(q) && Ids(q[1..]) <= Ids(q)
  {
    assert forall k :: 1 <= k < |q| ==> q[k] == q[1..][k - 1];
    assert forall k :: 0 <= k < |q| - 1 ==> q[1..][k] == q[k + 1];
  }
}
