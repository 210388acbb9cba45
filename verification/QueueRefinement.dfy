/**
 * The in-memory queue refines a priority queue ordered by SLO and, among equal SLOs, by arrival.
 * The abstract queue is a set of stamped entries; nothing in it is kept in order.
 */
module QueueRefinement {
  import opened Types
  import opened QueueSpec
  import opened MockQueue

  datatype Stamped = Stamped(entry: Entry, arrival: nat)

  /** The entries waiting, and the stamp of the next arrival. */
  datatype Pending = Pending(items: set<Stamped>, next: nat)

  predicate Before(a: Stamped, b: Stamped) {
    a.entry.slo < b.entry.slo || (a.entry.slo == b.entry.slo && a.arrival < b.arrival)
  }

  predicate InOrder(sq: seq<Stamped>) {
    forall i, j :: 0 <= i < j < |sq| ==> Before(sq[i], sq[j])
  }

  function Entries(sq: seq<Stamped>): seq<Entry> {
    seq(|sq|, i requires 0 <= i < |sq| => sq[i].entry)
  }

  function Items(sq: seq<Stamped>): set<Stamped> {
    set x | x in sq
  }

  /** The abstract actions. `out` is what the action hands out, in order. */
  ghost predicate AbstractStep(p: Pending, op: Op, out: seq<Stamped>, p': Pending) {
    match op
    case Enq(e) => out == [] && p' == Pending(p.items + {Stamped(e, p.next)}, p.next + 1)
    case Deq(n) =>
      // the least entries, as many as there are and are asked for, in order
      && InOrder(out) && Items(out) <= p.items && |out| == (if n < |p.items| then n else |p.items|)
      && p' == Pending(p.items - Items(out), p.next)
      && forall x, y :: x in out && y in p'.items ==> Before(x, y)
    case Rem(id) =>
      // the least entry with the ID, if there is one
      if forall x :: x in p.items ==> x.entry.id != id then out == [] && p' == p
      else
        && |out| == 1 && out[0] in p.items && out[0].entry.id == id
        && (forall y :: y in p.items && y.entry.id == id && y != out[0] ==> Before(out[0], y))
        && p' == Pending(p.items - {out[0]}, p.next)
  }

  /** What the concrete action hands out. */
  function OutOf(q: seq<Entry>, op: Op): seq<Entry> {
    match op
    case Enq(_) => []
    case Deq(n) => q[..Min(n, |q|)]
    case Rem(id) => if IndexOf(q, id) < |q| then [q[IndexOf(q, id)]] else []
  }

  /** `sq` is `q` with its arrival stamps: the pending entries, in order. */
  ghost predicate Represents(q: seq<Entry>, p: Pending, sq: seq<Stamped>) {
    && Entries(sq) == q && InOrder(sq) && Items(sq) == p.items
    && forall i :: 0 <= i < |sq| ==> sq[i].arrival < p.next
  }

  lemma {:induction false} ItemsCount(sq: seq<Stamped>)
    requires InOrder(sq)
    ensures |Items(sq)| == |sq|
  {
    if sq != [] {
      var front, last := sq[..|sq| - 1], sq[|sq| - 1];
      ItemsCount(front);
      assert sq == front + [last];
      assert Items(sq) == Items(front) + {last};
      assert last !in front;
    }
  }

  function Splice(sq: seq<Stamped>, i: nat, x: Stamped): seq<Stamped>
    requires i <= |sq|
  {
    sq[..i] + [x] + sq[i..]
  }

  lemma SpliceInOrder(sq: seq<Stamped>, i: nat, x: Stamped)
    requires InOrder(sq) && i <= |sq|
    requires (forall k :: 0 <= k < i ==> Before(sq[k], x)) && (forall k :: i <= k < |sq| ==> Before(x, sq[k]))
    ensures InOrder(Splice(sq, i, x))
  {
    var r := Splice(sq, i, x);
    assert forall k :: 0 <= k < |r| ==> r[k] == if k < i then sq[k] else if k == i then x else sq[k - 1];
  }

  lemma SpliceParts(sq: seq<Stamped>, i: nat, x: Stamped)
    requires i <= |sq|
    ensures Items(Splice(sq, i, x)) == Items(sq) + {x}
    ensures Entries(Splice(sq, i, x)) == Entries(sq)[..i] + [x.entry] + Entries(sq)[i..]
  {
    assert sq == sq[..i] + sq[i..];
  }

  lemma EnqRefines(q: seq<Entry>, p: Pending, sq: seq<Stamped>, e: Entry) returns (sq': seq<Stamped>)
    requires Represents(q, p, sq)
    ensures Represents(Insert(q, e), Pending(p.items + {Stamped(e, p.next)}, p.next + 1), sq')
  {
    var i := InsertIndex(q, e.slo);
    var x := Stamped(e, p.next);
    sq' := Splice(sq, i, x);
    assert forall k :: 0 <= k < |q| ==> q[k] == sq[k].entry;
    forall k | i <= k < |sq| ensures Before(x, sq[k]) {
      if i < k { assert Before(sq[i], sq[k]); }
    }
    SpliceInOrder(sq, i, x);
    SpliceParts(sq, i, x);
    forall k | 0 <= k < |sq'| ensures sq'[k].arrival < p.next + 1 {
      assert sq'[k] in Items(sq) + {x};
    }
  }

  lemma FrontBeforeRest(sq: seq<Stamped>, m: nat)
    requires InOrder(sq) && m <= |sq|
    ensures forall x, y :: x in sq[..m] && y in sq[m..] ==> Before(x, y)
  {
    forall x, y | x in sq[..m] && y in sq[m..] ensures Before(x, y) {
      var j :| 0 <= j < m && sq[j] == x;
      var k :| m <= k < |sq| && sq[k] == y;
    }
  }

  lemma RestItems(sq: seq<Stamped>, m: nat)
    requires InOrder(sq) && m <= |sq|
    ensures Items(sq[m..]) == Items(sq) - Items(sq[..m])
    ensures Entries(sq[..m]) == Entries(sq)[..m] && Entries(sq[m..]) == Entries(sq)[m..]
  {
    FrontBeforeRest(sq, m);
    assert sq == sq[..m] + sq[m..];
    forall x | x in sq[m..] ensures x !in sq[..m] {
      assert !Before(x, x);
    }
  }

  lemma DeqRefines(q: seq<Entry>, p: Pending, sq: seq<Stamped>, n: nat)
    requires Represents(q, p, sq)
    ensures var m := Min(n, |q|);
            && AbstractStep(p, Deq(n), sq[..m], Pending(p.items - Items(sq[..m]), p.next))
            && Represents(q[m..], Pending(p.items - Items(sq[..m]), p.next), sq[m..])
            && Entries(sq[..m]) == q[..m]
  {
    var m := Min(n, |q|);
    ItemsCount(sq);
    RestItems(sq, m);
    FrontBeforeRest(sq, m);
    assert Items(sq[..m]) <= Items(sq);
    assert forall y :: y in Items(sq[m..]) ==> y in sq[m..];
  }

  function Drop(sq: seq<Stamped>, i: nat): seq<Stamped>
    requires i < |sq|
  {
    sq[..i] + sq[i + 1..]
  }

  lemma DropInOrder(sq: seq<Stamped>, i: nat)
    requires InOrder(sq) && i < |sq|
    ensures InOrder(Drop(sq, i))
  {
    var r := Drop(sq, i);
    assert forall k :: 0 <= k < |r| ==> r[k] == if k < i then sq[k] else sq[k + 1];
  }

  lemma DropParts(sq: seq<Stamped>, i: nat)
    requires InOrder(sq) && i < |sq|
    ensures Items(Drop(sq, i)) == Items(sq) - {sq[i]}
    ensures Entries(Drop(sq, i)) == Cut(Entries(sq), i)
  {
    var r := Drop(sq, i);
    assert sq == sq[..i] + ([sq[i]] + sq[i + 1..]);
    forall x | x in r ensures x != sq[i] {
      var k :| 0 <= k < |r| && r[k] == x;
      assert r[k] == if k < i then sq[k] else sq[k + 1];
    }
  }

  lemma FirstOfId(sq: seq<Stamped>, i: nat, id: JobId)
    requires InOrder(sq) && i < |sq| && sq[i].entry.id == id
    requires forall k :: 0 <= k < i ==> sq[k].entry.id != id
    ensures forall y :: y in sq && y.entry.id == id && y != sq[i] ==> Before(sq[i], y)
  {
    forall y | y in sq && y.entry.id == id && y != sq[i] ensures Before(sq[i], y) {
      var k :| 0 <= k < |sq| && sq[k] == y;
      assert i < k;
    }
  }

  lemma RemRefines(q: seq<Entry>, p: Pending, sq: seq<Stamped>, id: JobId)
    returns (out: seq<Stamped>, p': Pending, sq': seq<Stamped>)
    requires Represents(q, p, sq)
    ensures AbstractStep(p, Rem(id), out, p') && Represents(Without(q, id), p', sq')
    ensures Entries(out) == OutOf(q, Rem(id))
  {
    var i := IndexOf(q, id);
    assert forall k :: 0 <= k < |q| ==> q[k] == sq[k].entry;
    if i == |q| {
      out, p', sq' := [], p, sq;
      forall x | x in p.items ensures x.entry.id != id {
        var k :| 0 <= k < |sq| && sq[k] == x;
      }
    } else {
      out, p', sq' := [sq[i]], Pending(p.items - {sq[i]}, p.next), Drop(sq, i);
      DropInOrder(sq, i);
      DropParts(sq, i);
      FirstOfId(sq, i, id);
      assert sq[i] in p.items;
      forall k | 0 <= k < |sq'| ensures sq'[k].arrival < p.next {
        assert sq'[k] in Items(sq);
      }
    }
  }

  /** One concrete action is matched by one abstract action. */
  lemma StepRefines(q: seq<Entry>, p: Pending, sq: seq<Stamped>, op: Op)
    returns (out: seq<Stamped>, p': Pending, sq': seq<Stamped>)
    requires Represents(q, p, sq)
    ensures AbstractStep(p, op, out, p') && Represents(AfterOp(q, op), p', sq')
    ensures Entries(out) == OutOf(q, op)
  {
    match op {
      case Enq(e) =>
        sq' := EnqRefines(q, p, sq, e);
        out, p' := [], Pending(p.items + {Stamped(e, p.next)}, p.next + 1);
      case Deq(n) =>
        var m := Min(n, |q|);
        DeqRefines(q, p, sq, n);
        out, p', sq' := sq[..m], Pending(p.items - Items(sq[..m]), p.next), sq[m..];
      case Rem(id) =>
        out, p', sq' := RemRefines(q, p, sq, id);
    }
  }

  /** Action `i` of a concrete history is matched by the abstract one, with the same output. */
  ghost predicate Matched(ops: seq<Op>, ps: seq<Pending>, outs: seq<seq<Stamped>>, i: nat)
    requires i < |ops| == |outs| && |ps| == |ops| + 1
  {
    AbstractStep(ps[i], ops[i], outs[i], ps[i + 1]) && Entries(outs[i]) == OutOf(AfterOps([], ops[..i]), ops[i])
  }

  /** A whole concrete history is matched by a run of the abstract queue from empty. */
  ghost predicate AllMatched(ops: seq<Op>, ps: seq<Pending>, outs: seq<seq<Stamped>>) {
    && |ps| == |ops| + 1 && |outs| == |ops| && ps[0] == Pending({}, 0)
    && forall i {:trigger Matched(ops, ps, outs, i)} :: 0 <= i < |ops| ==> Matched(ops, ps, outs, i)
  }

  lemma AllMatchedAppend(ops: seq<Op>, ps: seq<Pending>, outs: seq<seq<Stamped>>,
                         op: Op, out: seq<Stamped>, p: Pending)
    requires AllMatched(ops, ps, outs)
    requires AbstractStep(ps[|ops|], op, out, p) && Entries(out) == OutOf(AfterOps([], ops), op)
    ensures AllMatched(ops + [op], ps + [p], outs + [out])
  {
    forall i | 0 <= i < |ops + [op]| ensures Matched(ops + [op], ps + [p], outs + [out], i) {
      if i < |ops| {
        assert Matched(ops, ps, outs, i);
        assert (ops + [op])[..i] == ops[..i];
      } else {
        assert (ops + [op])[..i] == ops;
      }
    }
  }

  /**
   * For every sequence of Enqueue, Dequeue and Remove there is a run of the abstract priority
   * queue with the same outputs; at its end the concrete queue lists the pending entries by SLO
   * and arrival.
   */
  lemma {:induction false} RefinesStablePriorityQueue(ops: seq<Op>)
    returns (ps: seq<Pending>, outs: seq<seq<Stamped>>, sq: seq<Stamped>)
    ensures AllMatched(ops, ps, outs)
    ensures Represents(AfterOps([], ops), ps[|ops|], sq)
  {
    if ops == [] {
      ps, outs, sq := [Pending({}, 0)], [], [];
    } else {
      var before, op := ops[..|ops| - 1], ops[|ops| - 1];
      var ps0, outs0, sq0 := RefinesStablePriorityQueue(before);
      var out, p, sq1 := StepRefines(AfterOps([], before), ps0[|before|], sq0, op);
      AllMatchedAppend(before, ps0, outs0, op, out, p);
      assert ops == before + [op];
      ps, outs, sq := ps0 + [p], outs0 + [out], sq1;
    }
  }

  function Arriving(op: Op): multiset<Entry> {
    if op.Enq? then multiset{op.entry} else multiset{}
  }

  function Enqueued(ops: seq<Op>): multiset<Entry> {
    if ops == [] then multiset{} else Enqueued(ops[..|ops| - 1]) + Arriving(ops[|ops| - 1])
  }

  function HandedOut(ops: seq<Op>): multiset<Entry> {
    if ops == [] then multiset{}
    else HandedOut(ops[..|ops| - 1]) + multiset(OutOf(AfterOps([], ops[..|ops| - 1]), ops[|ops| - 1]))
  }

  lemma StepConserves(q: seq<Entry>, op: Op)
    ensures multiset(AfterOp(q, op)) + multiset(OutOf(q, op)) == multiset(q) + Arriving(op)
  {
    match op {
      case Enq(e) => InsertBag(q, e);
      case Deq(n) => assert q == q[..Min(n, |q|)] + q[Min(n, |q|)..];
      case Rem(id) =>
        if IndexOf(q, id) < |q| { CutBag(q, IndexOf(q, id)); }
    }
  }

  lemma Shuffle(before: multiset<Entry>, after: multiset<Entry>, handed: multiset<Entry>, out: multiset<Entry>,
                total: multiset<Entry>, arriving: multiset<Entry>)
    requires before + handed == total && after + out == before + arriving
    ensures after + (handed + out) == total + arriving
  {
    forall e ensures (after + (handed + out))[e] == (total + arriving)[e] {
      assert (after + out)[e] == (before + arriving)[e];
    }
  }

  /** Nothing is lost or made up: enqueued entries are handed out or still queued. */
  lemma {:induction false} EntriesConserved(ops: seq<Op>)
    ensures multiset(AfterOps([], ops)) + HandedOut(ops) == Enqueued(ops)
  {
    if ops != [] {
      var before, op := ops[..|ops| - 1], ops[|ops| - 1];
      var q := AfterOps([], before);
      EntriesConserved(before);
      StepConserves(q, op);
      Shuffle(multiset(q), multiset(AfterOp(q, op)), HandedOut(before), multiset(OutOf(q, op)),
              Enqueued(before), Arriving(op));
    }
  }

  /**
   * Draining is a stable sort: a Dequeue of everything after any history empties the queue and hands
   * out what was enqueued and not handed out before, by SLO and, among equal SLOs, by arrival.
   */
  lemma DrainSortsStably(ops: seq<Op>) returns (ps: seq<Pending>, outs: seq<seq<Stamped>>)
    ensures var q := AfterOps([], ops);
            var drain := Deq(|q|);
            && AllMatched(ops + [drain], ps, outs)
            && AfterOps([], ops + [drain]) == [] && ps[|ops| + 1].items == {}
            && Entries(outs[|ops|]) == OutOf(q, drain)
            && InOrder(outs[|ops|]) && Items(outs[|ops|]) == ps[|ops|].items
            && multiset(OutOf(q, drain)) + HandedOut(ops) == Enqueued(ops)
  {
    var q := AfterOps([], ops);
    var drain := Deq(|q|);
    var ps0, outs0, sq := RefinesStablePriorityQueue(ops);
    var p := ps0[|ops|];
    DeqRefines(q, p, sq, |q|);
    assert |sq| == |q| && sq[..|q|] == sq && q[..|q|] == q;
    AllMatchedAppend(ops, ps0, outs0, drain, sq, Pending(p.items - Items(sq), p.next));
    assert (ops + [drain])[..|ops|] == ops;
    EntriesConserved(ops);
    ps, outs := ps0 + [Pending(p.items - Items(sq), p.next)], outs0 + [sq];
  }

  // ---------- Putting a fetched entry back ----------

  /**
   * Dequeuing one entry and enqueuing it again, as the polling loop does when it cannot read the
   * job's record, moves the head just behind the entries that share its SLO. The queue stays
   * sorted with the same entries, and it is restored exactly when all those entries equal the head.
   */
  lemma PutBackMovesBehindEquals(q: seq<Entry>)
    requires Sorted(q) && q != []
    ensures var k, r := InsertIndex(q, q[0].slo), Insert(q[1..], q[0]);
            && 1 <= k && (forall j :: 0 <= j < |q| ==> (j < k <==> q[j].slo == q[0].slo))
            && r == q[1..k] + [q[0]] + q[k..]
            && Sorted(r) && multiset(r) == multiset(q)
            && (r == q <==> forall j :: 1 <= j < k ==> q[j] == q[0])
  {
    var e, t := q[0], q[1..];
    var k := InsertIndex(q, e.slo);
    EqualsComeFirst(q, k);
    PutBackSorted(q);
    Rotated(q, k);
    RotationFixedIff(q, k);
  }

  lemma PutBackSorted(q: seq<Entry>)
    requires Sorted(q) && q != []
    ensures Sorted(Insert(q[1..], q[0])) && multiset(Insert(q[1..], q[0])) == multiset(q)
  {
    TailKeeps(q);
    InsertSorted(q[1..], q[0]);
    InsertBag(q[1..], q[0]);
    assert q == [q[0]] + q[1..];
  }

  lemma Rotated(q: seq<Entry>, k: nat)
    requires 1 <= k <= |q| && InsertIndex(q[1..], q[0].slo) == k - 1
    ensures Insert(q[1..], q[0]) == q[1..k] + [q[0]] + q[k..]
  {
    assert q[1..][..k - 1] == q[1..k] && q[1..][k - 1..] == q[k..];
  }

  lemma RotationFixedIff(q: seq<Entry>, k: nat)
    requires 1 <= k <= |q|
    ensures q[1..k] + [q[0]] + q[k..] == q <==> forall j :: 1 <= j < k ==> q[j] == q[0]
  {
    if q[1..k] + [q[0]] + q[k..] == q {
      RotationFixed(q, k);
    } else {
      RotationOfEquals(q, k);
    }
  }

  lemma EqualsComeFirst(q: seq<Entry>, k: nat)
    requires Sorted(q) && q != [] && k == InsertIndex(q, q[0].slo)
    ensures 1 <= k && InsertIndex(q[1..], q[0].slo) == k - 1
    ensures forall j :: 0 <= j < |q| ==> (j < k <==> q[j].slo == q[0].slo)
  {
    forall j | k <= j < |q| ensures q[j].slo != q[0].slo {
      if k < j { assert q[k].slo <= q[j].slo; }
    }
  }

  lemma RotationOfEquals(q: seq<Entry>, k: nat)
    requires 1 <= k <= |q|
    ensures (forall j :: 1 <= j < k ==> q[j] == q[0]) ==> q[1..k] + [q[0]] + q[k..] == q
  {
  }

  lemma {:induction false} RotationFixed(q: seq<Entry>, k: nat)
    requires 1 <= k <= |q| && q[1..k] + [q[0]] + q[k..] == q
    ensures forall j :: 1 <= j < k ==> q[j] == q[0]
  {
    var r := q[1..k] + [q[0]] + q[k..];
    forall j | 0 <= j < k - 1 ensures q[j] == q[j + 1] {
      assert r[j] == q[1..k][j] == q[j + 1];
    }
    AllEqual(q, k);
  }

  lemma {:induction false} AllEqual(q: seq<Entry>, k: nat)
    requires 1 <= k <= |q| && forall j :: 0 <= j < k - 1 ==> q[j] == q[j + 1]
    ensures forall j :: 0 <= j < k ==> q[j] == q[0]
  {
    if k > 1 {
      AllEqual(q, k - 1);
      assert q[k - 2] == q[k - 2 + 1];
    }
  }

  /** With distinct IDs the put-back restores the queue exactly when nothing else shares the head's SLO. */
  lemma PutBackRestoresIff(q: seq<Entry>)
    requires Sorted(q) && q != [] && DistinctIds(q)
    ensures Insert(q[1..], q[0]) == q <==> forall j :: 1 <= j < |q| ==> q[j].slo != q[0].slo
  {
    PutBackMovesBehindEquals(q);
    var k := InsertIndex(q, q[0].slo);
    if k > 1 {
      assert q[1].slo == q[0].slo && q[1] != q[0];
    }
  }
}
