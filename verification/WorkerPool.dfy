/** The pool of worker IDs: a buffered channel of IDs and a WaitGroup counter. */
module Pool {

  /** The worker IDs 1 to n, in the order `NewWorkerPool` sends them. */
  function IdsUpTo(n: nat): seq<int> {
    seq(n, i => i + 1)
  }

  /** The channel's capacity and contents, and the WaitGroup counter. */
  datatype State = State(capacity: nat, ids: seq<int>, wg: int)

  /** The receiver takes the oldest ID. */
  function Received(s: State): State
    requires s.ids != []
  {
    s.(ids := s.ids[1..])
  }

  /** The first half of `Release`; it waits while the channel is full. */
  function Sent(s: State, id: int): State {
    s.(ids := s.ids + [id])
  }

  /** The second half of `Release`, wg.Done. */
  function Signalled(s: State): State {
    s.(wg := s.wg - 1)
  }

  predicate HasRoom(s: State) {
    |s.ids| < s.capacity
  }

  /** wg.Wait returns. */
  predicate WaitPasses(s: State) {
    s.wg == 0
  }

  datatype Op =
    | TryAcquire
    | Receive          // straight from the channel, as the polling loop does
    | Release(id: int)

  /** What a call leaves behind when it can complete its channel operation. */
  function After(s: State, op: Op): State {
    match op
    case TryAcquire => if s.ids == [] then s else Received(s).(wg := s.wg + 1)
    case Receive => if s.ids == [] then s else Received(s)
    case Release(id) => Signalled(Sent(s, id))
  }

  datatype ReleaseOutcome = Released | Blocked | Panicked

  class WorkerPool {
    const maxWorkers: nat
    var workerIds: seq<int>
    var wg: int

    function Contents(): State
      reads this
    {
      State(maxWorkers, workerIds, wg)
    }

    constructor (maxWorkers: nat)
      ensures Contents() == State(maxWorkers, IdsUpTo(maxWorkers), 0)
      ensures |workerIds| == maxWorkers && forall i :: 0 <= i < maxWorkers ==> workerIds[i] == i + 1
    {
      this.maxWorkers := maxWorkers;
      workerIds := [];
      wg := 0;
      new;
      for i := 1 to maxWorkers + 1
        invariant workerIds == IdsUpTo(i - 1) && wg == 0
      {
        workerIds := workerIds + [i];
      }
    }

    /** Does not wait: ID 0 and false when no worker is free. */
    method TryAcquire() returns (id: int, ok: bool)
      modifies this
      ensures Contents() == After(old(Contents()), Op.TryAcquire)
      ensures ok <==> old(workerIds) != []
      ensures ok ==> [id] + workerIds == old(workerIds) && wg == old(wg) + 1
      ensures !ok ==> id == 0 && workerIds == [] && wg == old(wg)
    {
      if workerIds != [] {
        id, ok := workerIds[0], true;
        workerIds := workerIds[1..];
        wg := wg + 1;
      } else {
        id, ok := 0, false;
      }
    }

    /** The receive in the polling loop's select, when its branch is taken. */
    method Receive() returns (id: int)
      requires workerIds != []
      modifies this
      ensures Contents() == After(old(Contents()), Op.Receive)
      ensures [id] + workerIds == old(workerIds) && wg == old(wg)
    {
      id := workerIds[0];
      workerIds := workerIds[1..];
    }

    /** Sends the ID back, then calls wg.Done, which panics below zero. */
    method Release(id: int) returns (r: ReleaseOutcome)
      modifies this
      ensures r == Blocked <==> maxWorkers <= |old(workerIds)|
      ensures r == Blocked ==> Contents() == old(Contents())
      ensures r != Blocked ==> Contents() == After(old(Contents()), Op.Release(id))
      ensures r != Blocked ==> workerIds == old(workerIds) + [id] && wg == old(wg) - 1
      ensures r != Blocked ==> (r == Panicked <==> old(wg) <= 0)
    {
      if maxWorkers <= |workerIds| {
        return Blocked;
      }
      workerIds := workerIds + [id];
      wg := wg - 1;
      r := if wg < 0 then Panicked else Released;
    }

    /** Whether a call to WaitAll returns at once. */
    method WaitAll() returns (passes: bool)
      ensures passes <==> WaitPasses(Contents())
    {
      passes := wg == 0;
    }
  }

  // ---------- Histories of clients ----------

  /** The pool with what its clients hold, and how many receives bypassed `TryAcquire` so far. */
  datatype History = History(pool: State, held: multiset<int>, direct: nat)

  function Fresh(n: nat): History {
    History(State(n, IdsUpTo(n), 0), multiset{}, 0)
  }

  /** A client releases only an ID it holds; a direct receive waits for an ID. */
  predicate Legal(h: History, op: Op) {
    match op
    case TryAcquire => true
    case Receive => h.pool.ids != []
    case Release(id) => id in h.held
  }

  function Next(h: History, op: Op): History {
    var pool := After(h.pool, op);
    match op
    case TryAcquire =>
      if h.pool.ids == [] then h else History(pool, h.held + multiset{h.pool.ids[0]}, h.direct)
    case Receive =>
      if h.pool.ids == [] then h else History(pool, h.held + multiset{h.pool.ids[0]}, h.direct + 1)
    case Release(id) => History(pool, h.held - multiset{id}, h.direct)
  }

  ghost predicate LegalRun(h: History, ops: seq<Op>)
    decreases |ops|
  {
    ops == [] || (Legal(h, ops[0]) && LegalRun(Next(h, ops[0]), ops[1..]))
  }

  ghost function Exec(h: History, ops: seq<Op>): History
    decreases |ops|
  {
    if ops == [] then h else Exec(Next(h, ops[0]), ops[1..])
  }

  ghost predicate Accounted(h: History, n: nat) {
    && h.pool.capacity == n
    && multiset(h.pool.ids) + h.held == multiset(IdsUpTo(n))
    && |h.pool.ids| + |h.held| == n
    && h.pool.wg == |h.held| - h.direct
  }

  lemma NextAccounted(h: History, op: Op, n: nat)
    requires Accounted(h, n) && Legal(h, op)
    ensures Accounted(Next(h, op), n)
  {
    if !op.Release? && h.pool.ids != [] {
      assert h.pool.ids == [h.pool.ids[0]] + h.pool.ids[1..];
    }
  }

  lemma {:induction false} RunAccounted(h: History, ops: seq<Op>, n: nat)
    requires Accounted(h, n) && LegalRun(h, ops)
    ensures Accounted(Exec(h, ops), n)
    decreases |ops|
  {
    if ops != [] {
      NextAccounted(h, ops[0], n);
      RunAccounted(Next(h, ops[0]), ops[1..], n);
    }
  }

  lemma {:induction false} DirectReceives(h: History, ops: seq<Op>)
    requires LegalRun(h, ops)
    ensures Receive !in ops ==> Exec(h, ops).direct == h.direct
    ensures Receive in ops ==> h.direct < Exec(h, ops).direct
    ensures h.direct <= Exec(h, ops).direct
    decreases |ops|
  {
    if ops != [] {
      DirectReceives(Next(h, ops[0]), ops[1..]);
      assert ops == [ops[0]] + ops[1..];
    }
  }

  /**
   * After any history the IDs 1 to n are in the channel or with clients, each once, so a client's
   * `Release` never blocks. Its wg.Done panics exactly when no more IDs are out than were taken
   * past `TryAcquire`, and `WaitAll` passes exactly when those numbers are equal.
   */
  lemma PoolAccounting(n: nat, ops: seq<Op>)
    requires LegalRun(Fresh(n), ops)
    ensures var h := Exec(Fresh(n), ops);
            && multiset(h.pool.ids) + h.held == multiset(IdsUpTo(n))
            && (forall id :: id in h.held ==> HasRoom(h.pool))
            && (h.pool.wg <= 0 <==> |h.held| <= h.direct)
            && (WaitPasses(h.pool) <==> |h.held| == h.direct)
  {
    assert |IdsUpTo(n)| == n;
    RunAccounted(Fresh(n), ops, n);
    var h := Exec(Fresh(n), ops);
    if id :| id in h.held {
      assert h.held == multiset{id} + (h.held - multiset{id});
    }
  }

  /**
   * If every ID is taken by `TryAcquire`, the counter is the number of IDs that are out: it never
   * goes below zero, no `Release` panics, and `WaitAll` passes exactly when all IDs are home.
   */
  lemma CounterOfAcquirers(n: nat, ops: seq<Op>)
    requires LegalRun(Fresh(n), ops) && Receive !in ops
    ensures var s := Exec(Fresh(n), ops).pool;
            && s.wg == n - |s.ids| && 0 <= s.wg
            && (WaitPasses(s) <==> |s.ids| == n)
    ensures forall id :: id in Exec(Fresh(n), ops).held ==> 0 < Exec(Fresh(n), ops).pool.wg
  {
    assert |IdsUpTo(n)| == n;
    RunAccounted(Fresh(n), ops, n);
    DirectReceives(Fresh(n), ops);
    PoolAccounting(n, ops);
  }

  /** One direct receive makes the difference: with a worker out, WaitAll passes and its Release panics. */
  lemma DirectReceiveBreaksCounter(n: nat)
    requires 1 <= n
    ensures LegalRun(Fresh(n), [Receive])
    ensures var h := Exec(Fresh(n), [Receive]);
            && h.held == multiset{1} && WaitPasses(h.pool)
            && Next(h, Release(1)).pool.wg == -1
  {
    var h := Next(Fresh(n), Receive);
    assert [Receive][1..] == [];
    assert Exec(Fresh(n), [Receive]) == Exec(h, []) == h;
  }
}
